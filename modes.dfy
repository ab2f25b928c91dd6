/** The two whitelists of exercise-mode labels: the one the client chart
    page consults (`checkAvailableMode` in src/lib/utils.ts) and the one the
    patient-selection page `/modes?mode=...` consults (`checkAvailable` in
    src/app/modes/page.tsx), with that page's redirect guard. */
module ModeLists {
  import opened Text

  /** The labels `checkAvailableMode` accepts, in lower case. */
  const ChartModes: seq<string> := [
    "cervical flexion", "thoracic extension", "thoracic side-shift to right", "thoracic rotation to right",
    "lumbar flexion", "lumbar extension", "lumbar side-shift to right", "lumbar rotation to right", "custom", "client"
  ]

  /** The labels `checkAvailable` accepts, in lower case, spelled as the page spells them. */
  const PageModes: seq<string> := [
    "cervical extension", "thoracic extention", "thoracic side-shift to right", "thoracic rotation to right",
    "lumbar flexion", "lumbar extension", "lumbar side-shift to right", "lumbar rotation to right", "custom"
  ]

  /** The labels the application's own links send to `/modes?mode=...`:
      the cervical card and the thoracic and lumbar sub-mode cards. */
  const LinkedModes: seq<string> := [
    "Cervical Flexion", "Thoracic Extension", "Thoracic Side-Shift to Right", "Thoracic Rotation to Right",
    "Lumbar Flexion", "Lumbar Extension", "Lumbar Side-Shift to Right", "Lumbar Rotation to Right", "Custom"
  ]

  /** Two strings that differ at most in the case of their letters. */
  predicate SameUpToCase(a: string, b: string) {
    |a| == |b| && forall i :: 0 <= i < |a| ==> LowerChar(a[i]) == LowerChar(b[i])
  }

  lemma SameUpToCaseLower(a: string, b: string)
    requires SameUpToCase(a, b)
    ensures Lower(a) == Lower(b)
  {
    assert forall i :: 0 <= i < |a| ==> Lower(a)[i] == Lower(b)[i];
  }

  /** `checkAvailableMode`: the label, lower-cased, is one of the ten chart modes. */
  predicate CheckAvailableMode(mode: string) {
    Lower(mode) in ChartModes
  }

  /** The answer does not depend on letter case. */
  lemma CheckAvailableModeIgnoresCase(a: string, b: string)
    requires SameUpToCase(a, b)
    ensures CheckAvailableMode(a) == CheckAvailableMode(b)
  {
    SameUpToCaseLower(a, b);
  }

  /** "Custom" and "Client" are chart modes; "Cervical Extension" is not,
      only the flexion is listed. */
  lemma ChartModeExamples()
    ensures CheckAvailableMode("Custom") && CheckAvailableMode("CLIENT")
    ensures !CheckAvailableMode("Cervical Extension")
  {
    LowerIs("Custom", "custom");
    LowerIs("CLIENT", "client");
    LowerIs("Cervical Extension", "cervical extension");
  }

  /** `checkAvailable` as written: the label, lower-cased, is one of the nine page modes. */
  predicate CheckAvailable(mode: string) {
    Lower(mode) in PageModes
  }

  lemma CheckAvailableIgnoresCase(a: string, b: string)
    requires SameUpToCase(a, b)
    ensures CheckAvailable(a) == CheckAvailable(b)
  {
    SameUpToCaseLower(a, b);
  }

  /** The page's list rejects "client", which the chart list accepts, and
      rejects the application's own "Cervical Flexion" and "Thoracic
      Extension" links (it lists "cervical extension" and the misspelt
      "thoracic extention"). */
  lemma PageRejectsLinkedModes()
    ensures CheckAvailableMode("client") && !CheckAvailable("client")
    ensures LinkedModes[0] == "Cervical Flexion" && !CheckAvailable(LinkedModes[0])
    ensures LinkedModes[1] == "Thoracic Extension" && !CheckAvailable(LinkedModes[1])
  {
    LowerIs("client", "client");
    LowerIs(LinkedModes[0], "cervical flexion");
    LowerIs(LinkedModes[1], "thoracic extension");
  }

  /** The page's list as evidently intended: the modes the application links to. */
  const IntendedPageModes: seq<string> := [
    "cervical flexion", "thoracic extension", "thoracic side-shift to right", "thoracic rotation to right",
    "lumbar flexion", "lumbar extension", "lumbar side-shift to right", "lumbar rotation to right", "custom"
  ]

  predicate CheckAvailableIntended(mode: string) {
    Lower(mode) in IntendedPageModes
  }

  /** With the intended list the two linked labels the page refuses are
      accepted. */
  lemma IntendedAcceptsLinkedModes()
    ensures CheckAvailableIntended(LinkedModes[0]) && CheckAvailableIntended(LinkedModes[1])
  {
    LowerIs(LinkedModes[0], "cervical flexion");
    LowerIs(LinkedModes[1], "thoracic extension");
  }

  /** The intended list still refuses "client", and every label it accepts
      is also a chart mode. */
  lemma IntendedWithinChartModes()
    ensures !CheckAvailableIntended("client")
    ensures forall m :: CheckAvailableIntended(m) ==> CheckAvailableMode(m)
  {
    LowerIs("client", "client");
    assert IntendedPageModes == ChartModes[..9];
  }

  datatype PageResult = RedirectHome | RenderModePage(mode: string)

  /** The `/modes` page as written: with no `mode` parameter, an empty one
      or one `checkAvailable` rejects it redirects to "/", otherwise it
      renders the patient list for that mode. */
  function ModesPageAsWritten(mode: Option<string>): (r: PageResult)
    ensures r.RenderModePage? <==> Truthy(mode) && CheckAvailable(mode.value)
    ensures r.RenderModePage? ==> r.mode == mode.value
  {
    if !Truthy(mode) then RedirectHome
    else if !CheckAvailable(mode.value) then RedirectHome
    else RenderModePage(mode.value)
  }

  /** The `/modes` page: with no `mode` parameter, an empty one or one the
      list rejects it redirects to "/", otherwise it renders the patient
      list for that mode. It consults the corrected list, so every mode card
      of the application leads to its patient list. */
  function ModesPage(mode: Option<string>): (r: PageResult)
    ensures r.RenderModePage? <==> Truthy(mode) && CheckAvailableIntended(mode.value)
    ensures r.RenderModePage? ==> r.mode == mode.value
    ensures r.RenderModePage? ==> CheckAvailableMode(mode.value)
  {
    IntendedWithinChartModes();
    if !Truthy(mode) then RedirectHome
    else if !CheckAvailableIntended(mode.value) then RedirectHome
    else RenderModePage(mode.value)
  }

  /** The application's own "Cervical Flexion" card leads home on the page
      as written, and to the patient list with the corrected list. */
  lemma FlexionLinkRedirects()
    ensures ModesPageAsWritten(Some(LinkedModes[0])) == RedirectHome
    ensures ModesPage(Some(LinkedModes[0])) == RenderModePage("Cervical Flexion")
  {
    PageRejectsLinkedModes();
    IntendedAcceptsLinkedModes();
  }
}
