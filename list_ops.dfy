/** The list operations every array field of a page document shares in the
    admin editor: add (append a default element), delete (filter out one
    index), move (swap with a neighbour) and replace one element. They are
    written once here, generically, and used for sections, stats, features,
    team members, client logos, project categories, rows and hero slides. */
module ListOps {

  datatype Direction = Up | Down

  /** Exchange the elements at `i` and `j`. */
  function Swap<T>(s: seq<T>, i: nat, j: nat): (r: seq<T>)
    requires i < |s| && j < |s|
    ensures |r| == |s| && r[i] == s[j] && r[j] == s[i]
    ensures forall k :: 0 <= k < |s| && k != i && k != j ==> r[k] == s[k]
    ensures multiset(r) == multiset(s)
  {
    s[i := s[j]][j := s[i]]
  }

  /** Moving up swaps with the previous element, moving down with the next
      one; at the first (up) or last (down) index nothing moves. */
  function Move<T>(s: seq<T>, i: nat, dir: Direction): (r: seq<T>)
    requires i < |s|
    ensures |r| == |s| && multiset(r) == multiset(s)
    ensures (dir == Up && i == 0) || (dir == Down && i == |s| - 1) ==> r == s
    ensures dir == Up && i > 0 ==>
      r[i - 1] == s[i] && r[i] == s[i - 1] &&
      forall k :: 0 <= k < |s| && k != i && k != i - 1 ==> r[k] == s[k]
    ensures dir == Down && i < |s| - 1 ==>
      r[i] == s[i + 1] && r[i + 1] == s[i] &&
      forall k :: 0 <= k < |s| && k != i && k != i + 1 ==> r[k] == s[k]
  {
    match dir
    case Up => if i > 0 then Swap(s, i, i - 1) else s
    case Down => if i < |s| - 1 then Swap(s, i, i + 1) else s
  }

  /** The editor's move handlers: copy the list into a fresh buffer, swap two
      slots of the copy by assignment, and hand the copy back. */
  method MoveItem<T>(items: seq<T>, index: nat, dir: Direction) returns (list: seq<T>)
    requires index < |items|
    ensures list == Move(items, index, dir)
  {
    var a := new T[|items|](k requires 0 <= k < |items| => items[k]);
    if dir == Up && index > 0 {
      a[index], a[index - 1] := a[index - 1], a[index];
    } else if dir == Down && index < a.Length - 1 {
      a[index], a[index + 1] := a[index + 1], a[index];
    }
    list := a[..];
  }

  /** Moving an element up and then moving it back down restores the list. */
  lemma MoveUpThenDown<T>(s: seq<T>, i: nat)
    requires 0 < i < |s|
    ensures Move(Move(s, i, Up), i - 1, Down) == s
  {
    var r := Move(Move(s, i, Up), i - 1, Down);
    assert forall k :: 0 <= k < |s| ==> r[k] == s[k];
  }

  /** Add: the new element goes at the end; earlier elements stay put. */
  function Append<T>(s: seq<T>, x: T): (r: seq<T>)
    ensures |r| == |s| + 1 && r[..|s|] == s && r[|s|] == x
  {
    s + [x]
  }

  /** Delete: `s.filter((_, k) => k !== i)` — exactly index `i` goes, the
      others keep their order. */
  function RemoveAt<T>(s: seq<T>, i: nat): (r: seq<T>)
    requires i < |s|
    ensures |r| == |s| - 1
    ensures forall k :: 0 <= k < i ==> r[k] == s[k]
    ensures forall k :: i <= k < |r| ==> r[k] == s[k + 1]
    ensures multiset(r) + multiset{s[i]} == multiset(s)
  {
    assert s == s[..i] + [s[i]] + s[i + 1..];
    s[..i] + s[i + 1..]
  }

  /** Edit: element `i` becomes `x`, every other element is unchanged. */
  function Replace<T>(s: seq<T>, i: nat, x: T): (r: seq<T>)
    requires i < |s|
    ensures |r| == |s| && r[i] == x
    ensures forall k :: 0 <= k < |s| && k != i ==> r[k] == s[k]
  {
    s[i := x]
  }
}
