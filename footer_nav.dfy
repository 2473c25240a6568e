/**
 * The site footer: a mobile accordion with at most one open section, and
 * links that forward a page identifier.
 */
module FooterNav {
  import opened Wrappers
  import opened Pages

  /** `openSection === section ? null : section`. */
  function Toggle(open: Option<string>, section: string): (next: Option<string>)
    ensures next == Some(section) <==> open != Some(section)
    ensures next.Some? ==> next.value == section
  {
    if open == Some(section) then None else Some(section)
  }

  /** Opening a section closes every other one; toggling it again closes it. */
  lemma ToggleProperties(open: Option<string>, section: string, other: string)
    requires other != section
    ensures Toggle(open, section) != Some(other)
    ensures Toggle(Toggle(open, section), section) == (if open == Some(section) then Some(section) else None)
  {
  }

  class Footer {
    var openSection: Option<string>

    constructor ()
      ensures openSection == None
    {
      openSection := None;
    }

    method ToggleSection(section: string)
      modifies this
      ensures openSection == Toggle(old(openSection), section)
    {
      if openSection == Some(section) {
        openSection := None;
      } else {
        openSection := Some(section);
      }
    }

    /** `handleNavigate(id)`: the identifier is passed on as is, whatever page it names. */
    method HandleNavigate(id: string) returns (forwarded: Page)
      ensures forwarded == PageFromId(id) && PageId(forwarded) == id
      ensures openSection == old(openSection)
    {
      forwarded := PageFromId(id);
      PageIdRoundTrip(forwarded, id);
    }
  }
}
