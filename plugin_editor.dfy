/**
 * The editor's host-side logic (Source/PluginEditor.cpp): the resource
 * provider that serves the web UI, the relays that bind UI controls to
 * parameters, and the activation messages sent back to the UI.
 */
module Editor {
  import opened Common
  import opened Text
  import ParameterIds
  import Processor

  // ---------------------------------------------------------------------
  // Resource provider

  /** The request path with at most one leading `/` removed; the empty path means `index.html`. */
  function ResourcePath(url: string): (path: string)
    ensures path != []
    ensures url == [] || url == "/" ==> path == "index.html"
    ensures url != [] && url != "/" ==> (if url[0] == '/' then url == "/" + path else path == url)
  {
    var path := if StartsWith(url, "/") then url[1..] else url;
    if path == [] then "index.html" else path
  }

  /** Extensions and MIME types in the order the provider tests them. */
  const MimeTable: seq<(string, string)> := [
    (".html", "text/html"), (".css", "text/css"), (".js", "application/javascript"),
    (".json", "application/json"), (".png", "image/png"), (".jpg", "image/jpeg"), (".jpeg", "image/jpeg"),
    (".svg", "image/svg+xml"), (".woff", "font/woff"), (".woff2", "font/woff2")]

  const DefaultMime: string := "application/octet-stream"

  /** The provider's extension tests in source order, first match wins (`.jpg || .jpeg` is two rows). */
  function MimeType(path: string): (mime: string)
    ensures (forall i :: 0 <= i < |MimeTable| ==> !EndsWith(path, MimeTable[i].0)) ==> mime == DefaultMime
  {
    FirstMatch(MimeTable, path)
  }

  /** The type of the first entry whose extension ends `path`, else the default. */
  function FirstMatch(table: seq<(string, string)>, path: string): (mime: string)
    ensures (forall i :: 0 <= i < |table| ==> !EndsWith(path, table[i].0)) ==> mime == DefaultMime
    decreases |table|
  {
    if table == [] then DefaultMime
    else if EndsWith(path, table[0].0) then table[0].1
    else
      assert forall i :: 0 <= i < |table| - 1 ==> table[1..][i] == table[i + 1];
      FirstMatch(table[1..], path)
  }

  /** The first entry whose extension ends `path` decides the type. */
  lemma {:induction false} FirstMatchFinds(table: seq<(string, string)>, path: string, i: nat)
    requires i < |table| && EndsWith(path, table[i].0)
    requires forall j :: 0 <= j < i ==> !EndsWith(path, table[j].0)
    ensures FirstMatch(table, path) == table[i].1
    decreases i
  {
    if i > 0 {
      assert !EndsWith(path, table[0].0);
      var rest := table[1..];
      assert rest[i - 1] == table[i];
      forall j | 0 <= j < i - 1
        ensures !EndsWith(path, rest[j].0)
      {
        assert rest[j] == table[j + 1];
      }
      FirstMatchFinds(rest, path, i - 1);
    }
  }

  /** No extension in the table ends with another one. */
  lemma ExtensionsAreSuffixFree()
    ensures forall i, j :: 0 <= i < |MimeTable| && 0 <= j < |MimeTable| && i != j ==> !EndsWith(MimeTable[i].0, MimeTable[j].0)
  {
  }

  /** Two suffixes of one path: the shorter is a suffix of the longer. */
  lemma SuffixOfSuffix(path: string, a: string, b: string)
    ensures EndsWith(path, a) && EndsWith(path, b) && |b| <= |a| ==> EndsWith(a, b)
  {
    if EndsWith(path, a) && EndsWith(path, b) && |b| <= |a| {
      assert a[|a| - |b|..] == path[|path| - |b|..];
    }
  }

  /** So the order of the tests does not matter: a path ending in a listed extension gets that extension's type. */
  lemma ExtensionDeterminesMime(path: string, i: nat)
    requires i < |MimeTable| && EndsWith(path, MimeTable[i].0)
    ensures MimeType(path) == MimeTable[i].1
  {
    ExtensionsAreSuffixFree();
    forall j | 0 <= j < i
      ensures !EndsWith(path, MimeTable[j].0)
    {
      SuffixOfSuffix(path, MimeTable[i].0, MimeTable[j].0);
      SuffixOfSuffix(path, MimeTable[j].0, MimeTable[i].0);
    }
    FirstMatchFinds(MimeTable, path, i);
  }

  /** `.jpg` and `.jpeg` are both served as `image/jpeg`. */
  lemma JpegAliases(path: string)
    ensures EndsWith(path, ".jpg") ==> MimeType(path) == "image/jpeg"
    ensures EndsWith(path, ".jpeg") ==> MimeType(path) == "image/jpeg"
  {
    if EndsWith(path, MimeTable[5].0) {
      ExtensionDeterminesMime(path, 5);
    }
    if EndsWith(path, MimeTable[6].0) {
      ExtensionDeterminesMime(path, 6);
    }
  }

  /** The resources directory: which files exist and what they hold. */
  datatype Resources = Resources(isFile: string -> bool, contents: string -> seq<bv8>)

  datatype Resource = Resource(data: seq<bv8>, mimeType: string)

  /** The resource-provider callback of the web view. */
  function Provide(dir: Resources, url: string): (r: Option<Resource>)
    ensures r == None <==> !dir.isFile(ResourcePath(url))
    ensures r.Some? ==> r.value == Resource(dir.contents(ResourcePath(url)), MimeType(ResourcePath(url)))
  {
    var path := ResourcePath(url);
    if !dir.isFile(path) then None
    else Some(Resource(dir.contents(path), MimeType(path)))
  }

  /** `/x` and `x` name the same resource when `x` does not itself start with `/`. */
  lemma LeadingSlashIgnored(dir: Resources, url: string)
    requires url == [] || url[0] != '/'
    ensures Provide(dir, "/" + url) == Provide(dir, url)
  {
    assert ("/" + url)[1..] == url;
  }

  // ---------------------------------------------------------------------
  // Parameter relays

  datatype RelayKind = SliderRelay | ToggleRelay

  /** `setupRelays`: one relay per host parameter, named by the parameter's identifier. */
  const Relays: seq<(string, RelayKind)> := [
    (ParameterIds.Drive, SliderRelay), (ParameterIds.Tone, SliderRelay),
    (ParameterIds.Output, SliderRelay), (ParameterIds.Bypass, ToggleRelay)]

  /** Each relay is attached to the layout parameter of the same name, sliders to floats and the toggle to the bool. */
  lemma RelaysMatchLayout()
    ensures |Relays| == |Processor.ParameterLayout()|
    ensures forall i :: 0 <= i < |Relays| ==>
              Relays[i].0 == Processor.ParameterLayout()[i].id
              && (Relays[i].1 == SliderRelay <==> Processor.ParameterLayout()[i].FloatParameter?)
  {
  }

  // ---------------------------------------------------------------------
  // Window size

  const DefaultWidth: int := 900
  const DefaultHeight: int := 520
  const MinWidth: int := 800
  const MinHeight: int := 460
  const MaxWidth: int := 1200
  const MaxHeight: int := 700

  /** The initial size lies within the resize limits. */
  lemma DefaultSizeWithinLimits()
    ensures MinWidth <= DefaultWidth <= MaxWidth && MinHeight <= DefaultHeight <= MaxHeight
  {
  }

  // ---------------------------------------------------------------------
  // Activation

  /** The licence statuses the activation service reports; `Unlisted` stands for any other value. */
  datatype ActivationStatus =
    | Valid | Invalid | Revoked | MaxReached | NetworkError | ServerError | NotConfigured | AlreadyActive | NotActivated
    | Unlisted

  /** The status text of an activation result. */
  function ActivationStatusText(s: ActivationStatus): (t: string)
    ensures t == "unknown" <==> s == Unlisted
  {
    match s
    case Valid => "valid"
    case Invalid => "invalid"
    case Revoked => "revoked"
    case MaxReached => "max_reached"
    case NetworkError => "network_error"
    case ServerError => "server_error"
    case NotConfigured => "not_configured"
    case AlreadyActive => "already_active"
    case NotActivated => "not_activated"
    case Unlisted => "unknown"
  }

  /** Reads an activation status text back. */
  function ParseStatusText(t: string): (r: Option<ActivationStatus>)
    ensures r.Some? ==> r.value != Unlisted && ActivationStatusText(r.value) == t
  {
    if t == "valid" then Some(Valid)
    else if t == "invalid" then Some(Invalid)
    else if t == "revoked" then Some(Revoked)
    else if t == "max_reached" then Some(MaxReached)
    else if t == "network_error" then Some(NetworkError)
    else if t == "server_error" then Some(ServerError)
    else if t == "not_configured" then Some(NotConfigured)
    else if t == "already_active" then Some(AlreadyActive)
    else if t == "not_activated" then Some(NotActivated)
    else None
  }

  /** The nine listed statuses have nine different texts: the UI can tell each one apart. */
  lemma ActivationStatusTextReadsBack(s: ActivationStatus)
    ensures ParseStatusText(ActivationStatusText(s)) == if s == Unlisted then None else Some(s)
  {
  }

  /** The status text of a deactivation result: only four statuses are named. */
  function DeactivationStatusText(s: ActivationStatus): (t: string)
    ensures t != "unknown" <==> s in {Valid, NetworkError, ServerError, NotActivated}
    ensures t != "unknown" ==> t == ActivationStatusText(s)
  {
    match s
    case Valid => "valid"
    case NetworkError => "network_error"
    case ServerError => "server_error"
    case NotActivated => "not_activated"
    case _ => "unknown"
  }

  datatype ActivationInfo = ActivationInfo(activationCode: string, machineId: string, activatedAt: string,
                                           currentActivations: int, maxActivations: int, isValid: bool)

  /** The activation object of an enabled build, as far as the editor asks it. */
  datatype Activation = Activation(activated: bool, info: Option<ActivationInfo>)

  /** The `activationState` message. */
  datatype ActivationState = ActivationState(isConfigured: bool, isActivated: bool, info: Option<ActivationInfo>)

  /**
   * `sendActivationState`: nothing without a web view, and nothing while the
   * browser is hidden (`emitEventIfBrowserIsVisible`). A build without
   * activation reports full access without configuration; otherwise the
   * state follows the activation object, with its info only when activated.
   */
  function SendActivationState(hasWebView: bool, browserVisible: bool, activationEnabled: bool, activation: Option<Activation>): (r: Option<ActivationState>)
    ensures r.Some? <==> hasWebView && browserVisible
    ensures r.Some? && !activationEnabled ==> r.value == ActivationState(false, true, None)
    ensures r.Some? && activationEnabled ==>
              r.value.isConfigured == activation.Some?
              && (r.value.isActivated <==> activation.Some? && activation.value.activated)
              && (r.value.info.Some? <==> r.value.isActivated && activation.value.info.Some?)
              && (r.value.info.Some? ==> r.value.info == activation.value.info)
  {
    if !hasWebView || !browserVisible then None
    else if !activationEnabled then Some(ActivationState(false, true, None))
    else
      var isActivated := activation.Some? && activation.value.activated;
      var info := if isActivated then activation.value.info else None;
      Some(ActivationState(activation.Some?, isActivated, info))
  }

  /** In an enabled build the UI is never told it is activated without a configured activation. */
  lemma ActivatedImpliesConfigured(hasWebView: bool, browserVisible: bool, activation: Option<Activation>)
    ensures var r := SendActivationState(hasWebView, browserVisible, true, activation);
            r.Some? && r.value.isActivated ==> r.value.isConfigured
  {
  }

  /** `handleActivateLicense`: the code handed to `activateAsync`, if the request goes ahead. */
  function ActivationRequest(activationEnabled: bool, code: string, hasActivation: bool): (r: Option<string>)
    ensures r.Some? <==> activationEnabled && code != [] && hasActivation
    ensures r.Some? ==> r.value == code
  {
    if !activationEnabled then None
    else if code == [] then None
    else if !hasActivation then None
    else Some(code)
  }

  /** The `activationResult` message. */
  datatype ActivationResult = ActivationResult(status: string, info: Option<ActivationInfo>)

  /** The reply to a finished activation: the status text, and the info for a successful one. */
  function ActivationReply(s: ActivationStatus, activation: Option<Activation>): (r: ActivationResult)
    ensures r.status == ActivationStatusText(s)
    ensures r.info.Some? <==> (s == Valid || s == AlreadyActive) && activation.Some? && activation.value.info.Some?
    ensures r.info.Some? ==> r.info == activation.value.info
  {
    var info := if (s == Valid || s == AlreadyActive) && activation.Some? then activation.value.info else None;
    ActivationResult(ActivationStatusText(s), info)
  }
}
