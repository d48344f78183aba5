/**
 * The upload wizard of frontend/src/components/UploadPage.jsx as an object
 * whose fields are the component's state variables and whose methods are
 * its event handlers. Browser services (file reader, geolocation, local
 * storage, the HTTP client, the clock) do not appear: what they deliver is
 * passed in as the parameters of the event that receives it.
 */
module UploadWizard {
  import opened Common
  import opened RequestBuilder

  /** The File object the picker delivers; only its identity matters here. */
  datatype FileHandle = FileHandle(name: string)

  /** The two coordinate inputs, by their `name` attribute. */
  datatype CoordField = Lat | Long

  /** `results`: the response body spread into a fresh object. */
  type Results = map<string, Json>

  const SelectModeStep: int := 1
  const UploadStep: int := 2
  const ResultStep: int := 3

  const EmptyForm: FormData := FormData("", "", "")
  const NoImageError: string := "Please upload a soil image"
  const LoginRequiredError: string := "Please login first"
  const AnalysisFailedError: string := "An error occurred during analysis"
  const LocationFailedError: string := "Failed to get current location. Please enter manually."
  const GeolocationUnsupportedError: string := "Geolocation is not supported by your browser"

  /** A submission in flight: the request sent, and the mode `handleSubmit`
      read when it ran. The code after the `await` still sees that mode,
      even if the user went back and chose another one meanwhile. */
  datatype Submission = Submission(request: Request, mode: Mode)

  /** All state variables of the component, as one value. */
  datatype WizardState = WizardState(
    activeStep: int,
    formData: FormData,
    imagePreview: string,
    imageFile: Option<FileHandle>,
    loading: bool,
    error: string,
    results: Option<Results>,
    mode: Mode)

  /** The state the component is mounted in. */
  const InitialState: WizardState :=
    WizardState(SelectModeStep, EmptyForm, "", None, false, "", None, Ai)

  /** JavaScript truthiness of a `localStorage.getItem` result. */
  predicate Truthy(v: Option<string>) {
    v.Some? && v.value != ""
  }

  /** `{...body, mode, timestamp}`: the response body with the mode and the
      client's completion time added, overriding fields of the same name. */
  function StoredResults(body: Results, mode: Mode, timestamp: string): (r: Results)
    ensures r.Keys == body.Keys + {"mode", "timestamp"}
    ensures r["mode"] == JString(ModeName(mode)) && r["timestamp"] == JString(timestamp)
    ensures forall k :: k in body && k != "mode" && k != "timestamp" ==> r[k] == body[k]
  {
    body["mode" := JString(ModeName(mode))]["timestamp" := JString(timestamp)]
  }

  /** The submit button's `disabled` condition: the button is off whenever
      `handleSubmit`'s image guard would refuse. */
  function SubmitDisabled(loading: bool, soilImage: string): (disabled: bool)
    ensures soilImage == "" ==> disabled
  {
    loading || soilImage == ""
  }

  class UploadPage {
    var activeStep: int
    var formData: FormData
    var imagePreview: string
    var imageFile: Option<FileHandle>
    var loading: bool
    var error: string
    var results: Option<Results>
    var mode: Mode

    function State(): WizardState
      reads this
    {
      WizardState(activeStep, formData, imagePreview, imageFile, loading, error, results, mode)
    }

    /** The step is one of the three; the result step is only shown with a
        result; the image payload is always the one carried by the preview,
        so the two are never out of step. */
    ghost predicate Valid()
      reads this
    {
      && SelectModeStep <= activeStep <= ResultStep
      && (activeStep == ResultStep ==> results.Some?)
      && (results.Some? ==> "mode" in results.value && "timestamp" in results.value)
      && formData.soilImage == DataUrlPayload(imagePreview)
    }

    constructor ()
      ensures Valid() && State() == InitialState
    {
      activeStep, formData, imagePreview, imageFile := SelectModeStep, EmptyForm, "", None;
      loading, error, results, mode := false, "", None, Ai;
    }

    /** `handleModeSelect`: record the mode and go to the upload step. */
    method SelectMode(m: Mode)
      requires Valid()
      modifies this
      ensures Valid()
      ensures State() == old(State()).(mode := m, activeStep := UploadStep)
    {
      mode := m;
      activeStep := UploadStep;
    }

    /** The "Continue to Upload Data" button of the first step. */
    method ContinueToUpload()
      requires Valid()
      modifies this
      ensures Valid()
      ensures State() == old(State()).(activeStep := UploadStep)
    {
      activeStep := UploadStep;
    }

    /** "Back to Mode Selection": only the step changes; the form, the
        preview and the mode are kept. */
    method Back()
      requires Valid()
      modifies this
      ensures Valid()
      ensures State() == old(State()).(activeStep := SelectModeStep)
    {
      activeStep := SelectModeStep;
    }

    /** `handleImageUpload`, synchronous part: remember the chosen file and
        start reading it. Nothing changes when no file was chosen. */
    method ChooseFile(file: Option<FileHandle>)
      requires Valid()
      modifies this
      ensures Valid()
      ensures file.None? ==> State() == old(State())
      ensures file.Some? ==> State() == old(State()).(imageFile := file)
    {
      if file.Some? {
        imageFile := file;
      }
    }

    /** The reader's `onloadend`: the payload becomes the data URL's
        segment after its first comma, the preview the whole data URL. */
    method ImageLoaded(dataUrl: string)
      requires Valid()
      modifies this
      ensures Valid()
      ensures State() == old(State()).(formData := old(formData).(soilImage := DataUrlPayload(dataUrl)), imagePreview := dataUrl)
    {
      formData := formData.(soilImage := DataUrlPayload(dataUrl));
      imagePreview := dataUrl;
    }

    /** The remove-image button: payload, preview and file are cleared;
        the coordinates stay. */
    method RemoveImage()
      requires Valid()
      modifies this
      ensures Valid()
      ensures State() == old(State()).(formData := old(formData).(soilImage := ""), imagePreview := "", imageFile := None)
    {
      imagePreview := "";
      imageFile := None;
      formData := formData.(soilImage := "");
    }

    /** `handleLocationChange`: the edited coordinate takes the input's text. */
    method LocationChanged(field: CoordField, value: string)
      requires Valid()
      modifies this
      ensures Valid()
      ensures field == Lat ==> State() == old(State()).(formData := old(formData).(lat := value))
      ensures field == Long ==> State() == old(State()).(formData := old(formData).(long := value))
    {
      match field
      case Lat => formData := formData.(lat := value);
      case Long => formData := formData.(long := value);
    }

    /** `handleGetCurrentLocation`: with geolocation available a lookup starts
        and `loading` is set; without it only the error is set. */
    method RequestCurrentLocation(supported: bool)
      requires Valid()
      modifies this
      ensures Valid()
      ensures supported ==> State() == old(State()).(loading := true)
      ensures !supported ==> State() == old(State()).(error := GeolocationUnsupportedError)
    {
      if supported {
        loading := true;
      } else {
        error := GeolocationUnsupportedError;
      }
    }

    /** The position callback: both coordinates are overwritten with the
        formatted position, and `loading` ends. */
    method LocationFound(lat: string, long: string)
      requires Valid()
      modifies this
      ensures Valid()
      ensures State() == old(State()).(formData := old(formData).(lat := lat, long := long), loading := false)
    {
      formData := formData.(lat := lat, long := long);
      loading := false;
    }

    /** The error callback: the coordinates already entered are kept. */
    method LocationFailed()
      requires Valid()
      modifies this
      ensures Valid()
      ensures State() == old(State()).(error := LocationFailedError, loading := false)
    {
      error := LocationFailedError;
      loading := false;
    }

    /** `handleSubmit` up to the network call. `username`, `password` and
        `token` are what local storage holds. Returns the submission sent,
        or None when a guard stops it; the step never changes. When
        `handleSubmit` runs with the submit button enabled, only missing
        credentials can stop it. */
    method BeginSubmit(username: Option<string>, password: Option<string>, token: Option<string>) returns (sent: Option<Submission>)
      requires Valid()
      modifies this
      ensures Valid()
      ensures sent.Some? <==> old(formData.soilImage) != "" && Truthy(username) && Truthy(password)
      ensures !old(SubmitDisabled(loading, formData.soilImage)) ==> (sent.Some? <==> Truthy(username) && Truthy(password))
      ensures old(formData.soilImage) == "" ==>
        State() == old(State()).(error := NoImageError)
      ensures old(formData.soilImage) != "" && !(Truthy(username) && Truthy(password)) ==>
        State() == old(State()).(error := LoginRequiredError, loading := false)
      ensures sent.Some? ==>
        && State() == old(State()).(error := "", loading := true)
        && sent.value == Submission(BuildRequest(mode, formData, username.value, password.value, token), mode)
    {
      if formData.soilImage == "" {
        error := NoImageError;
        return None;
      }
      loading := true;
      error := "";
      if !Truthy(username) || !Truthy(password) {
        error := LoginRequiredError;
        loading := false;
        return None;
      }
      sent := Some(Submission(BuildRequest(mode, formData, username.value, password.value, token), mode));
    }

    /** The request of `sent` resolved with `status` and `body` at client
        time `timestamp` (the HTTP client resolves only 2xx replies; others
        arrive as `SubmitFailed`): a 200 stores the results, tagged with the
        submission's mode, and shows them; any other 2xx status changes
        nothing but `loading`. */
    method SubmitSucceeded(sent: Submission, status: int, body: Results, timestamp: string)
      requires Valid()
      requires 200 <= status < 300
      modifies this
      ensures Valid()
      ensures status == 200 ==>
        State() == old(State()).(results := Some(StoredResults(body, sent.mode, timestamp)), activeStep := ResultStep, loading := false)
      ensures status != 200 ==> State() == old(State()).(loading := false)
    {
      if status == 200 {
        results := Some(StoredResults(body, sent.mode, timestamp));
        activeStep := ResultStep;
      }
      loading := false;
    }

    /** The request threw: the server's `detail` is shown when there is a
        non-empty one, otherwise the generic message; the step stays. */
    method SubmitFailed(detail: Option<string>)
      requires Valid()
      modifies this
      ensures Valid()
      ensures State() == old(State()).(error := if Truthy(detail) then detail.value else AnalysisFailedError, loading := false)
    {
      error := if Truthy(detail) then detail.value else AnalysisFailedError;
      loading := false;
    }

    /** `resetForm`: back to the first step with an empty form, no image,
        no result and no error. The mode and `loading` are kept. */
    method Reset()
      requires Valid()
      modifies this
      ensures Valid()
      ensures State() == InitialState.(mode := old(mode), loading := old(loading))
    {
      formData := EmptyForm;
      imagePreview := "";
      imageFile := None;
      results := None;
      error := "";
      activeStep := SelectModeStep;
    }
  }

  /** A chat submission answered with HTTP 500 and detail "model unavailable"
      shows exactly that detail and stays on the upload step. */
  method ServerErrorScenario(dataUrl: string) returns (step: int, shown: string, sent: Option<Submission>)
    requires DataUrlPayload(dataUrl) != ""
    ensures step == UploadStep && shown == "model unavailable"
    ensures sent.Some? && sent.value.request.endpoint == ChatEndpoint
  {
    var page := new UploadPage();
    page.SelectMode(Chat);
    page.ImageLoaded(dataUrl);
    assert page.activeStep == UploadStep && page.mode == Chat && page.formData.soilImage != "";
    var user, password := Some("farmer@example.com"), Some("secret");
    assert Truthy(user) && Truthy(password);
    sent := page.BeginSubmit(user, password, None);
    assert page.activeStep == UploadStep && sent.Some?;
    page.SubmitFailed(Some("model unavailable"));
    step, shown := page.activeStep, page.error;
  }

  /** After a successful analysis, `resetForm` leaves every field as it was
      at mount time except the chosen mode. */
  method ResetAfterResultScenario(dataUrl: string, body: Results) returns (before: WizardState, after: WizardState)
    requires DataUrlPayload(dataUrl) != ""
    ensures before.activeStep == ResultStep && before.results.Some? && before.mode == Chat
    ensures after == InitialState.(mode := Chat)
  {
    var page := new UploadPage();
    page.SelectMode(Chat);
    page.ImageLoaded(dataUrl);
    assert page.mode == Chat && page.formData.soilImage != "";
    var user, password := Some("farmer@example.com"), Some("secret");
    assert Truthy(user) && Truthy(password);
    var sent := page.BeginSubmit(user, password, Some("token"));
    assert page.mode == Chat && page.loading && sent.Some?;
    page.SubmitSucceeded(sent.value, 200, body, "2025-01-01T00:00:00.000Z");
    before := page.State();
    page.Reset();
    after := page.State();
  }

  /** Going back and choosing the analysis mode while a chat submission is
      in flight does not relabel its results: they are stored as a chat
      answer, while the page's mode is now the analysis mode. */
  method ModeSwitchedInFlightScenario(dataUrl: string, body: Results) returns (stored: Json, current: Mode)
    requires DataUrlPayload(dataUrl) != ""
    ensures stored == JString("chat") && current == Ai
  {
    var page := new UploadPage();
    page.SelectMode(Chat);
    page.ImageLoaded(dataUrl);
    var user, password := Some("farmer@example.com"), Some("secret");
    assert page.formData.soilImage != "" && Truthy(user) && Truthy(password);
    var sent := page.BeginSubmit(user, password, None);
    assert sent.Some? && sent.value.mode == Chat;
    page.Back();
    page.SelectMode(Ai);
    page.SubmitSucceeded(sent.value, 200, body, "2025-01-01T00:00:00.000Z");
    assert page.results.Some?;
    stored, current := page.results.value["mode"], page.mode;
  }
}
