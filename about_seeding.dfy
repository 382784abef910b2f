/** The about page's self-healing section seeding, run by the editor on every
    load of the about page: for each of five keywords, in a fixed order, if no
    existing section heading contains it, a placeholder section is appended.
    A section with no heading that the search reaches before a match makes
    `s.heading.includes` throw; the load's error handler then keeps the
    sections as loaded. */
module AboutSeeding {
  import opened Wrappers
  import opened Text
  import opened PageModel

  /** One required section: the keyword searched for in existing headings and
      the placeholder appended when it is missing. */
  datatype Required = Required(keyword: string, placeholder: Section)

  const Requirements: seq<Required> := [
    Required("About Sharvari", Section(Some("About Sharvari Electricals"),
      Some("Sharvari Electricals is a premier EPC company..."),
      Some("https://images.unsplash.com/photo-1497366216548-37526070297c?auto=format&fit=crop&q=80&w=1200"), None)),
    Required("Infrastructure", Section(Some("Our Infrastructure"),
      Some("We possess state-of-the-art infrastructure..."),
      Some("https://images.unsplash.com/photo-1581091226825-a6a2a5aee158?auto=format&fit=crop&q=80&w=1200"), None)),
    Required("Vision", Section(Some("Our Vision"), Some("To be the globally recognized leader..."), None, None)),
    Required("Mission", Section(Some("Our Mission"), Some("To deliver superior electrical infrastructure..."), None, None)),
    Required("Strength", Section(Some("Our Strength"), Some("Our core strengths lie in our experienced workforce..."), None, None))
  ]

  /** The outcome of `sections.find(s => s.heading.includes(keyword))`. */
  datatype Search = Found | NotFound | Threw

  function FindKeyword(sections: seq<Section>, keyword: string): (r: Search)
    ensures r == NotFound ==> forall k :: 0 <= k < |sections| ==>
      sections[k].heading.Some? && !Contains(sections[k].heading.value, keyword)
  {
    if sections == [] then NotFound
    else match sections[0].heading
      case None => Threw
      case Some(h) => if Contains(h, keyword) then Found else FindKeyword(sections[1..], keyword)
  }

  /** The placeholders to append for `reqs`, in order, or None when a search
      throws. */
  function Missing(sections: seq<Section>, reqs: seq<Required>): Option<seq<Section>>
  {
    if reqs == [] then Some([])
    else match FindKeyword(sections, reqs[0].keyword)
      case Threw => None
      case Found => Missing(sections, reqs[1..])
      case NotFound =>
        match Missing(sections, reqs[1..])
        case None => None
        case Some(rest) => Some([reqs[0].placeholder] + rest)
  }

  /** `pushed` followed by what a later search finds missing. */
  function After(pushed: seq<Section>, later: Option<seq<Section>>): Option<seq<Section>> {
    if later.None? then None else Some(pushed + later.value)
  }

  /** One check-and-push of the editor's load: `find` over the loaded
      sections for the first keyword of `reqs`, and a push of its
      placeholder when nothing matched. Taking that requirement off the list
      still to check does not change the overall outcome, and a throw ends
      it. */
  method CheckOne(current: seq<Section>, reqs: seq<Required>, pushed: seq<Section>) returns (threw: bool, next: seq<Section>)
    requires reqs != []
    ensures threw <==> FindKeyword(current, reqs[0].keyword) == Threw
    ensures threw ==> After(pushed, Missing(current, reqs)) == None
    ensures !threw ==> After(pushed, Missing(current, reqs)) == After(next, Missing(current, reqs[1..]))
  {
    var found := FindKeyword(current, reqs[0].keyword);
    threw := found == Threw;
    next := if found == NotFound then pushed + [reqs[0].placeholder] else pushed;
    if threw {
      ThrowStep(current, reqs, pushed);
    } else {
      CheckStep(current, reqs, pushed);
    }
  }

  /** One check-and-push takes the first requirement off the list still to
      be checked without changing the overall outcome. */
  lemma CheckStep(current: seq<Section>, reqs: seq<Required>, pushed: seq<Section>)
    requires reqs != [] && FindKeyword(current, reqs[0].keyword) != Threw
    ensures After(pushed, Missing(current, reqs)) ==
      After(if FindKeyword(current, reqs[0].keyword) == NotFound then pushed + [reqs[0].placeholder] else pushed,
            Missing(current, reqs[1..]))
  {
    var found := FindKeyword(current, reqs[0].keyword);
    var later := Missing(current, reqs[1..]);
    if found == Found {
      assert Missing(current, reqs) == later;
    } else {
      assert found == NotFound;
      assert Missing(current, reqs) == if later.None? then None else Some([reqs[0].placeholder] + later.value);
      if later.Some? {
        assert pushed + ([reqs[0].placeholder] + later.value) == pushed + [reqs[0].placeholder] + later.value;
      }
    }
  }

  /** The five checks and pushes of the editor's load, one after another into
      a fresh `missingSections` list; None when a search throws. The editor
      passes `Requirements` as `r`. */
  method MissingSections(current: seq<Section>, r: seq<Required>) returns (missing: Option<seq<Section>>)
    requires |r| == 5
    ensures missing == Missing(current, r)
  {
    var threw: bool;
    var p1, p2, p3, p4, p5: seq<Section>;
    AfterNothing(Missing(current, r));
    assert r[0..] == r;
    threw, p1 := CheckOne(current, r[0..], []);
    if threw { return None; }
    Rest(r, 0);
    threw, p2 := CheckOne(current, r[1..], p1);
    if threw { return None; }
    Rest(r, 1);
    threw, p3 := CheckOne(current, r[2..], p2);
    if threw { return None; }
    Rest(r, 2);
    threw, p4 := CheckOne(current, r[3..], p3);
    if threw { return None; }
    Rest(r, 3);
    threw, p5 := CheckOne(current, r[4..], p4);
    if threw { return None; }
    Rest(r, 4);
    assert r[5..] == [];
    AfterNothing(Some(p5));
    missing := Some(p5);
  }

  /** A search that throws makes the whole outcome None, whatever was pushed. */
  lemma ThrowStep(current: seq<Section>, reqs: seq<Required>, pushed: seq<Section>)
    requires reqs != [] && FindKeyword(current, reqs[0].keyword) == Threw
    ensures After(pushed, Missing(current, reqs)) == None
  {
  }

  /** Dropping the first `i` requirements and then one more drops `i + 1`. */
  lemma Rest(r: seq<Required>, i: nat)
    requires i < |r|
    ensures r[i..][0] == r[i] && r[i..][1..] == r[i + 1..]
  {
  }

  lemma AfterNothing(m: Option<seq<Section>>)
    ensures After([], m) == m
    ensures m.Some? ==> After(m.value, Some([])) == m
  {
    if m.Some? {
      assert [] + m.value == m.value && m.value + [] == m.value;
    }
  }

  /** The sections after seeding: unchanged when nothing is missing or a
      search threw, otherwise the loaded sections followed by the missing
      placeholders. */
  function Seeded(current: seq<Section>): seq<Section>
  {
    match Missing(current, Requirements)
    case None => current
    case Some(m) => current + m
  }

  // ---- Properties -------------------------------------------------------

  /** Each placeholder's heading contains its own keyword. */
  lemma PlaceholdersMatchTheirKeywords()
    ensures forall k :: 0 <= k < |Requirements| ==>
      Requirements[k].placeholder.heading.Some? &&
      Contains(Requirements[k].placeholder.heading.value, Requirements[k].keyword)
  {
    assert "About Sharvari Electricals"[0..14] == "About Sharvari";
    ContainsAt("About Sharvari Electricals", "About Sharvari", 0);
    assert "Our Infrastructure"[4..18] == "Infrastructure";
    ContainsAt("Our Infrastructure", "Infrastructure", 4);
    assert "Our Vision"[4..10] == "Vision";
    ContainsAt("Our Vision", "Vision", 4);
    assert "Our Mission"[4..11] == "Mission";
    ContainsAt("Our Mission", "Mission", 4);
    assert "Our Strength"[4..12] == "Strength";
    ContainsAt("Our Strength", "Strength", 4);
  }

  /** Every loaded section has a heading, so no search can throw. */
  predicate AllHeaded(s: seq<Section>) {
    forall k :: 0 <= k < |s| ==> s[k].heading.Some?
  }

  lemma {:induction false} FindHeaded(s: seq<Section>, keyword: string)
    requires AllHeaded(s)
    ensures FindKeyword(s, keyword) != Threw
    ensures FindKeyword(s, keyword) == Found <==>
      exists k :: 0 <= k < |s| && Contains(s[k].heading.value, keyword)
  {
    if s != [] {
      FindHeaded(s[1..], keyword);
      if FindKeyword(s, keyword) == Found && !Contains(s[0].heading.value, keyword) {
        var k :| 0 <= k < |s[1..]| && Contains(s[1..][k].heading.value, keyword);
        assert Contains(s[k + 1].heading.value, keyword);
      }
      if !Contains(s[0].heading.value, keyword) && exists k :: 0 <= k < |s| && Contains(s[k].heading.value, keyword) {
        var k :| 0 <= k < |s| && Contains(s[k].heading.value, keyword);
        assert Contains(s[1..][k - 1].heading.value, keyword);
      }
    }
  }

  /** Searching a concatenation: the first part decides unless it has no
      match and no headless section. */
  lemma {:induction false} FindInConcat(a: seq<Section>, b: seq<Section>, keyword: string)
    ensures FindKeyword(a + b, keyword) ==
      if FindKeyword(a, keyword) == NotFound then FindKeyword(b, keyword) else FindKeyword(a, keyword)
  {
    if a != [] {
      assert (a + b)[0] == a[0] && (a + b)[1..] == a[1..] + b;
      FindInConcat(a[1..], b, keyword);
    } else {
      assert a + b == b;
    }
  }

  /** Every position moved one place later. */
  function Shift(ix: seq<nat>): (r: seq<nat>)
    ensures |r| == |ix| && forall j :: 0 <= j < |ix| ==> r[j] == ix[j] + 1
  {
    seq(|ix|, j requires 0 <= j < |ix| => ix[j] + 1)
  }

  /** The positions in `reqs`, ascending, of the requirements whose keyword
      the search reports as not found. */
  function Unmatched(current: seq<Section>, reqs: seq<Required>): seq<nat>
  {
    if reqs == [] then []
    else if FindKeyword(current, reqs[0].keyword) == NotFound then [0] + Shift(Unmatched(current, reqs[1..]))
    else Shift(Unmatched(current, reqs[1..]))
  }

  /** `out` is, entry by entry, the placeholders at the positions `ix`. */
  predicate Entries(reqs: seq<Required>, out: seq<Section>, ix: seq<nat>) {
    |ix| == |out| &&
    forall j :: 0 <= j < |ix| ==> ix[j] < |reqs| && out[j] == reqs[ix[j]].placeholder
  }

  predicate Ascending(ix: seq<nat>) {
    forall i, j :: 0 <= i < j < |ix| ==> ix[i] < ix[j]
  }

  /** `ix` holds exactly the positions whose keyword is not found. */
  predicate Marks(current: seq<Section>, reqs: seq<Required>, ix: seq<nat>) {
    forall k :: 0 <= k < |reqs| ==> (k in ix <==> FindKeyword(current, reqs[k].keyword) == NotFound)
  }

  /** `out` is, entry by entry, the placeholders at the ascending positions
      `ix`, and `ix` holds exactly the positions whose keyword is not found. */
  predicate Picks(current: seq<Section>, reqs: seq<Required>, out: seq<Section>, ix: seq<nat>) {
    Entries(reqs, out, ix) && Ascending(ix) && Marks(current, reqs, ix)
  }

  lemma ShiftedMembers(ix: seq<nat>)
    ensures 0 !in Shift(ix)
    ensures forall k: nat :: k in ix <==> k + 1 in Shift(ix)
  {
    var shifted := Shift(ix);
    forall k: nat
      ensures k in ix <==> k + 1 in shifted
    {
      if k + 1 in shifted {
        var j :| 0 <= j < |shifted| && shifted[j] == k + 1;
        assert ix[j] == k;
      }
    }
  }

  lemma EntriesShift(reqs: seq<Required>, out: seq<Section>, ix: seq<nat>)
    requires reqs != [] && Entries(reqs[1..], out, ix)
    ensures Entries(reqs, out, Shift(ix))
    ensures Entries(reqs, [reqs[0].placeholder] + out, [0] + Shift(ix))
  {
    var nix := Shift(ix);
    forall j | 0 <= j < |nix|
      ensures nix[j] < |reqs| && out[j] == reqs[nix[j]].placeholder
    {
      assert reqs[nix[j]] == reqs[1..][ix[j]];
    }
    var pix := [0] + nix;
    var pout := [reqs[0].placeholder] + out;
    forall j | 0 <= j < |pix|
      ensures pix[j] < |reqs| && pout[j] == reqs[pix[j]].placeholder
    {
      if j > 0 {
        assert pix[j] == nix[j - 1] && pout[j] == out[j - 1];
      }
    }
  }

  lemma AscendingShift(ix: seq<nat>)
    requires Ascending(ix)
    ensures Ascending(Shift(ix)) && Ascending([0] + Shift(ix))
  {
    var nix := Shift(ix);
    var pix := [0] + nix;
    forall i, j | 0 <= i < j < |pix|
      ensures pix[i] < pix[j]
    {
      if i > 0 {
        assert pix[i] == nix[i - 1] && pix[j] == nix[j - 1];
      }
    }
  }

  lemma MarksShift(current: seq<Section>, reqs: seq<Required>, ix: seq<nat>)
    requires reqs != [] && Marks(current, reqs[1..], ix)
    ensures FindKeyword(current, reqs[0].keyword) != NotFound ==> Marks(current, reqs, Shift(ix))
    ensures FindKeyword(current, reqs[0].keyword) == NotFound ==> Marks(current, reqs, [0] + Shift(ix))
  {
    ShiftedMembers(ix);
    var nix := Shift(ix);
    forall k | 1 <= k < |reqs|
      ensures k in nix <==> FindKeyword(current, reqs[k].keyword) == NotFound
    {
      assert reqs[k] == reqs[1..][k - 1];
      assert k - 1 in ix <==> k in nix;
    }
  }

  /** Over headed sections the pushed placeholders are, entry by entry, those
      of the unmatched requirements, taken once each and in the order of the
      requirements. */
  lemma {:induction false} MissingIndexed(current: seq<Section>, reqs: seq<Required>)
    requires AllHeaded(current)
    ensures Missing(current, reqs).Some?
    ensures Picks(current, reqs, Missing(current, reqs).value, Unmatched(current, reqs))
  {
    if reqs != [] {
      FindHeaded(current, reqs[0].keyword);
      MissingIndexed(current, reqs[1..]);
      var out := Missing(current, reqs[1..]).value;
      var ix := Unmatched(current, reqs[1..]);
      EntriesShift(reqs, out, ix);
      AscendingShift(ix);
      MarksShift(current, reqs, ix);
    }
  }

  /** With every loaded section headed, `Missing` succeeds and holds exactly
      the placeholders of the requirements whose keyword no heading contains,
      once per such requirement and in the order of the requirements. */
  lemma {:induction false} MissingExactly(current: seq<Section>, reqs: seq<Required>)
    requires AllHeaded(current)
    ensures Missing(current, reqs).Some?
    ensures |Missing(current, reqs).value| <= |reqs|
    ensures forall k :: 0 <= k < |reqs| && FindKeyword(current, reqs[k].keyword) == NotFound ==>
      reqs[k].placeholder in Missing(current, reqs).value
    ensures forall p :: p in Missing(current, reqs).value ==>
      exists k :: 0 <= k < |reqs| && reqs[k].placeholder == p && FindKeyword(current, reqs[k].keyword) == NotFound
    ensures (forall k :: 0 <= k < |reqs| ==> FindKeyword(current, reqs[k].keyword) == Found) ==>
      Missing(current, reqs).value == []
    ensures var out := Missing(current, reqs).value;
      var ix := Unmatched(current, reqs);
      |ix| == |out| &&
      (forall j :: 0 <= j < |ix| ==> ix[j] < |reqs| && out[j] == reqs[ix[j]].placeholder) &&
      (forall i, j :: 0 <= i < j < |ix| ==> ix[i] < ix[j]) &&
      (forall k :: 0 <= k < |reqs| ==> (k in ix <==> FindKeyword(current, reqs[k].keyword) == NotFound))
  {
    MissingIndexed(current, reqs);
    assert Picks(current, reqs, Missing(current, reqs).value, Unmatched(current, reqs));
    if reqs != [] {
      FindHeaded(current, reqs[0].keyword);
      MissingExactly(current, reqs[1..]);
      assert forall k :: 1 <= k < |reqs| ==> reqs[k] == reqs[1..][k - 1];
    }
  }

  /** A headless first section makes the first search throw: nothing is
      seeded. */
  lemma HeadlessFirstSectionStopsSeeding(current: seq<Section>, reqs: seq<Required>)
    requires current != [] && current[0].heading.None?
    requires reqs != []
    ensures Missing(current, reqs) == None
  {
  }

  lemma HeadlessFirstSectionKeepsSections(current: seq<Section>)
    requires current != [] && current[0].heading.None?
    ensures Seeded(current) == current
  {
    HeadlessFirstSectionStopsSeeding(current, Requirements);
  }

  /** After seeding a list whose sections are all headed, every one of the
      five keywords is found, the loaded sections come first, and at most
      five sections were added. */
  lemma SeedingCompletes(current: seq<Section>)
    requires AllHeaded(current)
    ensures |current| <= |Seeded(current)| <= |current| + 5
    ensures Seeded(current)[..|current|] == current
    ensures forall k :: 0 <= k < |Requirements| ==>
      FindKeyword(Seeded(current), Requirements[k].keyword) == Found
  {
    MissingExactly(current, Requirements);
    var m := Missing(current, Requirements).value;
    assert Seeded(current) == current + m;
    PlaceholdersMatchTheirKeywords();
    forall k | 0 <= k < |Requirements|
      ensures FindKeyword(current + m, Requirements[k].keyword) == Found
    {
      var kw := Requirements[k].keyword;
      FindInConcat(current, m, kw);
      FindHeaded(current, kw);
      if FindKeyword(current, kw) == NotFound {
        assert Requirements[k].placeholder in m;
        var j :| 0 <= j < |m| && m[j] == Requirements[k].placeholder;
        MissingExactly(current, Requirements);
        PlaceholdersHeaded(current, Requirements);
        FindHeaded(m, kw);
      }
    }
  }

  /** When the loaded sections and all placeholders are headed, so is every
      placeholder `Missing` appends. */
  lemma PlaceholdersHeaded(current: seq<Section>, reqs: seq<Required>)
    requires AllHeaded(current)
    requires forall k :: 0 <= k < |reqs| ==> reqs[k].placeholder.heading.Some?
    ensures Missing(current, reqs).Some?
    ensures AllHeaded(Missing(current, reqs).value)
  {
    MissingExactly(current, reqs);
    var m := Missing(current, reqs).value;
    forall j | 0 <= j < |m| ensures m[j].heading.Some? {
      assert m[j] in m;
    }
  }

  /** Seeding is idempotent: a second load of a seeded list finds nothing
      missing and leaves it alone. */
  lemma SeedingIdempotent(current: seq<Section>)
    requires AllHeaded(current)
    ensures Missing(Seeded(current), Requirements) == Some([])
    ensures Seeded(Seeded(current)) == Seeded(current)
  {
    SeedingCompletes(current);
    PlaceholdersMatchTheirKeywords();
    PlaceholdersHeaded(current, Requirements);
    var s := Seeded(current);
    var m := Missing(current, Requirements).value;
    assert s == current + m;
    assert AllHeaded(s) by {
      forall j | 0 <= j < |s| ensures s[j].heading.Some? {
        if j >= |current| { assert s[j] == m[j - |current|]; }
      }
    }
    MissingExactly(s, Requirements);
    assert s + [] == s;
  }

  /** A search over sections with a headless one never reports NotFound:
      it either matches before that section or throws there. */
  lemma HeadlessNeverNotFound(current: seq<Section>, keyword: string, h: nat)
    requires h < |current| && current[h].heading.None?
    ensures FindKeyword(current, keyword) != NotFound
  {
  }

  /** With a headless section loaded, no search reports NotFound, so nothing
      is ever pushed: the outcome is a throw or an empty list. */
  lemma {:induction false} HeadlessPushesNothing(current: seq<Section>, reqs: seq<Required>)
    requires !AllHeaded(current)
    ensures Missing(current, reqs) == None || Missing(current, reqs) == Some([])
  {
    if reqs != [] {
      var h :| 0 <= h < |current| && current[h].heading.None?;
      HeadlessNeverNotFound(current, reqs[0].keyword, h);
      HeadlessPushesNothing(current, reqs[1..]);
    }
  }

  /** For every loaded list: the loaded sections come first, and a list with
      a headless section is kept exactly as loaded. */
  lemma SeedingKeepsLoaded(current: seq<Section>)
    ensures |current| <= |Seeded(current)| && Seeded(current)[..|current|] == current
    ensures !AllHeaded(current) ==> Seeded(current) == current
  {
    if !AllHeaded(current) {
      HeadlessPushesNothing(current, Requirements);
      assert current + [] == current;
    }
  }

  /** Seeding is idempotent for every loaded list, headed or not. */
  lemma SeedingStable(current: seq<Section>)
    ensures Seeded(Seeded(current)) == Seeded(current)
  {
    if AllHeaded(current) {
      SeedingIdempotent(current);
    } else {
      SeedingKeepsLoaded(current);
    }
  }
}
