/** The site-wide contact settings shared by every page: three built-in
    defaults, replaced field by field by whatever the stored
    `settings/general` document holds. */
module SiteSettings {
  import opened Wrappers
  import opened PageModel

  datatype Settings = Settings(email: string, phone: string, address: string)

  const Defaults: Settings :=
    Settings("info@sharvarielectricals.com", "+91-0000000000", "Aurangabad, Maharashtra, India")

  /** `{ ...prev, ...data }` on the three contact fields: a field the
      document holds (even an empty one) wins, an absent one keeps the
      previous value. */
  function Merge(prev: Settings, data: PageDoc): (r: Settings)
    ensures r.email == data.email.GetOr(prev.email)
    ensures r.phone == data.phone.GetOr(prev.phone)
    ensures r.address == data.address.GetOr(prev.address)
  {
    Settings(data.email.GetOr(prev.email), data.phone.GetOr(prev.phone), data.address.GetOr(prev.address))
  }

  /** The settings after a fetch: merged when a document came back,
      unchanged when the store returned nothing (missing document or a
      failed read). */
  function AfterFetch(prev: Settings, fetched: Option<PageDoc>): (r: Settings)
    ensures fetched.None? ==> r == prev
  {
    if fetched.Some? then Merge(prev, fetched.value) else prev
  }

  /** Merging the same document again changes nothing, and a document with
      all three fields decides the settings whatever they were before. */
  lemma MergeLaws(prev: Settings, other: Settings, data: PageDoc)
    ensures Merge(Merge(prev, data), data) == Merge(prev, data)
    ensures data.email.Some? && data.phone.Some? && data.address.Some? ==> Merge(prev, data) == Merge(other, data)
    ensures data.email.None? && data.phone.None? && data.address.None? ==> Merge(prev, data) == prev
  {
  }

  /** The provider's state. */
  class SiteSettingsStore {
    var settings: Settings
    var loading: bool

    constructor ()
      ensures settings == Defaults && loading
    {
      settings := Defaults;
      loading := true;
    }

    /** The start of `fetchSettings`. */
    method BeginFetch()
      modifies this
      ensures loading && settings == old(settings)
    {
      loading := true;
    }

    /** The end of `fetchSettings`, with the store's answer. */
    method EndFetch(fetched: Option<PageDoc>)
      modifies this
      ensures !loading && settings == AfterFetch(old(settings), fetched)
    {
      if fetched.Some? {
        settings := Merge(settings, fetched.value);
      }
      loading := false;
    }

    /** `fetchSettings` and `refreshSettings`: a whole fetch. */
    method FetchSettings(fetched: Option<PageDoc>)
      modifies this
      ensures !loading && settings == AfterFetch(old(settings), fetched)
    {
      BeginFetch();
      EndFetch(fetched);
    }

    method RefreshSettings(fetched: Option<PageDoc>)
      modifies this
      ensures !loading && settings == AfterFetch(old(settings), fetched)
    {
      FetchSettings(fetched);
    }
  }
}
