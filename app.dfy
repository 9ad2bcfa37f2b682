/**
 * The page controller: module-level state (the faces and frame of the last
 * capture, the data template) and the parts of the DOM the handlers touch
 * (the status indicator, the counters, the button flags, the result panels,
 * the registration form and its inputs, the face overlay). Every server call
 * is a parameter holding its settled outcome; the requests the page sends are
 * kept in a log.
 */
module App {
  import opened Promises
  import opened Text
  import opened Voice

  /** A detected face as the detection endpoint describes it. */
  datatype Face = Face(x: int, y: int, w: int, h: int, confidence: real, gender: string)

  datatype Detection = Detection(success: bool, faces: seq<Face>)

  /** The recognition reply; `user` is the stored record's `data` when one matched. */
  datatype Recognition = Recognition(recognized: bool, user: Option<map<string, string>>)

  datatype Registration = Registration(success: bool, userId: string)

  datatype ServerStatus = ServerStatus(usersCount: int, model: string)

  /** The data template; `fields` is absent from a template that has none. */
  datatype Template = Template(fields: Option<seq<Field>>)

  /** The status line: its message and whether it shows as online. */
  datatype Indicator = Indicator(message: string, online: bool)

  /** What the recognition panel shows. */
  datatype RecognitionPanel = KnownUser(data: map<string, string>) | NewFace

  datatype InputKind = NumberInput | TextInput

  /** A form input: `id`, `name`, `type`, the text of its label, and its current value. */
  datatype Input = Input(id: string, name: string, kind: InputKind, caption: string, value: string)

  /** A request the page sends to the server. */
  datatype Request =
    | StatusRequest
    | TemplateRequest
    | DetectRequest(frame: string)
    | RecognizeRequest(image: Option<string>, face: Face)
    | RegisterRequest(image: Option<string>, face: Face, userData: map<string, string>)

  const ConnectingMessage: string := "Connecting to server..."
  const OnlineMessage: string := "Online"
  const OfflineMessage: string := "Offline"
  const CameraMessage: string := "Camera active"
  const CollectedReply: string := "Data collected successfully. Please review and save."
  const CancelledReply: string := "Data collection cancelled."

  // ---------------------------------------------------------------------------
  // Number inputs
  // ---------------------------------------------------------------------------

  /** The first position in `s` holding a character of `cs`, or `|s|`. */
  function IndexOfAny(s: string, cs: set<char>): (r: nat)
    ensures r <= |s|
    ensures r < |s| ==> s[r] in cs
    ensures forall k :: 0 <= k < r ==> s[k] !in cs
    decreases |s|
  {
    if s == [] || s[0] in cs then 0 else 1 + IndexOfAny(s[1..], cs)
  }

  /** Digits, digits `.` digits, or `.` digits. */
  predicate IsMantissa(m: string) {
    var d := IndexOfAny(m, {'.'});
    if d == |m| then m != [] && AllDigits(m)
    else AllDigits(m[..d]) && d + 1 < |m| && AllDigits(m[d + 1..])
  }

  /** Nothing, or `e`/`E`, an optional sign and digits. */
  predicate IsExponent(x: string) {
    x == [] ||
    (|x| >= 2 && x[0] in {'e', 'E'} &&
     var r := if x[1] in {'+', '-'} then x[2..] else x[1..];
     r != [] && AllDigits(r))
  }

  /** A valid floating-point number in the sense of the HTML standard: an optional `-`, a mantissa and an optional exponent. */
  predicate IsFloatingPoint(s: string) {
    var u := if s != [] && s[0] == '-' then s[1..] else s;
    var e := IndexOfAny(u, {'e', 'E'});
    IsMantissa(u[..e]) && IsExponent(u[e..])
  }

  predicate IsLineBreak(c: char) {
    c == '\n' || c == '\r'
  }

  ghost predicate HasLineBreak(s: string) {
    exists k :: 0 <= k < |s| && IsLineBreak(s[k])
  }

  /**
   * `v` with its line feeds and carriage returns removed: no line break is
   * left, every other character keeps its number of occurrences, and `v`
   * comes back unchanged exactly when it has no line break.
   */
  function StripLineBreaks(v: string): (r: string)
    ensures forall k :: 0 <= k < |r| ==> !IsLineBreak(r[k])
    ensures forall c :: !IsLineBreak(c) ==> multiset(r)[c] == multiset(v)[c]
    ensures r == v <==> !HasLineBreak(v)
    decreases |v|
  {
    if v == [] then []
    else
      assert v == [v[0]] + v[1..];
      assert multiset(v) == multiset([v[0]]) + multiset(v[1..]);
      assert HasLineBreak(v[1..]) ==> HasLineBreak(v) by {
        if HasLineBreak(v[1..]) {
          var k :| 0 <= k < |v[1..]| && IsLineBreak(v[1..][k]);
          assert IsLineBreak(v[k + 1]);
        }
      }
      var rest := StripLineBreaks(v[1..]);
      if IsLineBreak(v[0]) then rest
      else
        assert multiset([v[0]] + rest) == multiset([v[0]]) + multiset(rest);
        [v[0]] + rest
  }

  /**
   * The value an input keeps when a script assigns `v` (the value
   * sanitization of the HTML standard): a number input drops anything that
   * is not a number, a text input drops line breaks.
   */
  function Sanitize(kind: InputKind, v: string): string {
    if kind == NumberInput then (if IsFloatingPoint(v) then v else "") else StripLineBreaks(v)
  }

  /** A non-empty run of digits is a number. */
  lemma DigitsAreNumber(s: string)
    requires s != [] && AllDigits(s)
    ensures IsFloatingPoint(s)
  {
    assert s[0] != '-';
    var e := IndexOfAny(s, {'e', 'E'});
    assert s[..e] == s;
  }

  /** Every number has a digit. */
  lemma NumberHasDigit(s: string)
    requires IsFloatingPoint(s)
    ensures HasDigit(s)
  {
    var o := if s != [] && s[0] == '-' then 1 else 0;
    var u := s[o..];
    var e := IndexOfAny(u, {'e', 'E'});
    var m := u[..e];
    var d := IndexOfAny(m, {'.'});
    var k := if d == |m| then 0 else d + 1;
    assert IsDigit(m[k]);
    assert s[o + k] == m[k];
  }

  /** A string without a digit is no number. */
  lemma NoDigitNoNumber(s: string)
    requires forall i :: 0 <= i < |s| ==> !IsDigit(s[i])
    ensures !IsFloatingPoint(s)
  {
    if IsFloatingPoint(s) {
      NumberHasDigit(s);
    }
  }

  /** The placeholder for a field left unanswered is not a number. */
  lemma NotProvidedIsNoNumber()
    ensures !IsFloatingPoint(NotProvided)
  {
    var s := NotProvided;
    assert forall i :: 0 <= i < |s| ==> !IsDigit(s[i]);
    NoDigitNoNumber(s);
  }

  // ---------------------------------------------------------------------------
  // The registration form
  // ---------------------------------------------------------------------------

  /** The input generated for a template field. */
  function InputFor(f: Field): Input {
    Input(f.name, f.name, if f.fieldType == "integer" then NumberInput else TextInput,
          if f.prompt != "" then f.prompt else f.name, "")
  }

  /** One input per field, in template order. */
  function FormFor(fields: seq<Field>): seq<Input> {
    seq(|fields|, i requires 0 <= i < |fields| => InputFor(fields[i]))
  }

  /** The inputs the form shows for a template: none when there is no template or it has no fields. */
  function TemplateForm(t: Option<Template>): seq<Input> {
    if t.Some? && t.value.fields.Some? then FormFor(t.value.fields.value) else []
  }

  /** `form.reset()`: every input back to its empty default. */
  function Cleared(inputs: seq<Input>): seq<Input> {
    seq(|inputs|, j requires 0 <= j < |inputs| => inputs[j].(value := ""))
  }

  /** `new FormData(form)`: every named input, a later input replacing an earlier one of the same name. */
  function FormEntries(inputs: seq<Input>): map<string, string>
    decreases |inputs|
  {
    if inputs == [] then map[]
    else
      var last := inputs[|inputs| - 1];
      var m := FormEntries(inputs[..|inputs| - 1]);
      if last.name != "" then m[last.name := last.value] else m
  }

  ghost predicate HasNamed(inputs: seq<Input>, name: string) {
    exists j :: 0 <= j < |inputs| && inputs[j].name == name
  }

  /** The form data holds exactly the non-empty names of the inputs. */
  lemma {:induction false} FormEntriesKeys(inputs: seq<Input>, name: string)
    ensures name in FormEntries(inputs) <==> name != "" && HasNamed(inputs, name)
    decreases |inputs|
  {
    if inputs != [] {
      var n := |inputs| - 1;
      var front := inputs[..n];
      FormEntriesKeys(front, name);
      if HasNamed(front, name) {
        var j :| 0 <= j < |front| && front[j].name == name;
        assert inputs[j].name == name;
      }
      if HasNamed(inputs, name) && inputs[n].name != name {
        var j :| 0 <= j < |inputs| && inputs[j].name == name;
        assert front[j].name == name;
      }
    }
  }

  /** An input no later input shares a name with gives the form data its value. */
  lemma {:induction false} FormEntriesLast(inputs: seq<Input>, j: nat)
    requires j < |inputs| && inputs[j].name != ""
    requires forall l :: j < l < |inputs| ==> inputs[l].name != inputs[j].name
    ensures inputs[j].name in FormEntries(inputs) && FormEntries(inputs)[inputs[j].name] == inputs[j].value
    decreases |inputs|
  {
    var n := |inputs| - 1;
    if j < n {
      var front := inputs[..n];
      assert front[j] == inputs[j];
      FormEntriesLast(front, j);
    }
  }

  /** After a reset the form data holds the same names, every one empty. */
  lemma {:induction false} ClearedEntries(inputs: seq<Input>)
    ensures FormEntries(Cleared(inputs)).Keys == FormEntries(inputs).Keys
    ensures forall name :: name in FormEntries(Cleared(inputs)) ==> FormEntries(Cleared(inputs))[name] == ""
    decreases |inputs|
  {
    if inputs != [] {
      var n := |inputs| - 1;
      assert Cleared(inputs)[..n] == Cleared(inputs[..n]);
      ClearedEntries(inputs[..n]);
    }
  }

  /** No input before position `n` has id `id`. */
  ghost predicate NoIdBefore(inputs: seq<Input>, id: string, n: nat)
    requires n <= |inputs|
  {
    forall k :: 0 <= k < n ==> inputs[k].id != id
  }

  /** `document.getElementById(id)` within the form: the first input with that id. */
  function FirstWithId(inputs: seq<Input>, id: string): (r: Option<nat>)
    ensures r.Some? ==> r.value < |inputs| && inputs[r.value].id == id && NoIdBefore(inputs, id, r.value)
    ensures r.None? ==> NoIdBefore(inputs, id, |inputs|)
    decreases |inputs|
  {
    if inputs == [] then None
    else if inputs[0].id == id then Some(0)
    else match FirstWithId(inputs[1..], id)
      case None => None
      case Some(j) => Some(j + 1)
  }

  /** The lookup depends on the ids alone. */
  lemma {:induction false} FirstWithIdIgnoresValues(a: seq<Input>, b: seq<Input>, id: string)
    requires |a| == |b| && forall j :: 0 <= j < |a| ==> a[j].id == b[j].id
    ensures FirstWithId(a, id) == FirstWithId(b, id)
    decreases |a|
  {
    if a != [] && a[0].id != id {
      FirstWithIdIgnoresValues(a[1..], b[1..], id);
    }
  }

  /** Input `j` once the keys in `done` were assigned: changed when it is the element found for its id. */
  function FilledAt(inputs: seq<Input>, data: map<string, string>, done: set<string>, j: nat): Input
    requires j < |inputs|
  {
    var x := inputs[j];
    if x.id in done && x.id in data && FirstWithId(inputs, x.id) == Some(j)
    then x.(value := Sanitize(x.kind, data[x.id]))
    else x
  }

  /** The inputs once the keys in `done` were assigned, in whatever order. */
  function Filled(inputs: seq<Input>, data: map<string, string>, done: set<string>): seq<Input> {
    seq(|inputs|, j requires 0 <= j < |inputs| => FilledAt(inputs, data, done, j))
  }

  /** The form after every key of `data` was assigned to the element with that id, if there is one. */
  function Merged(inputs: seq<Input>, data: map<string, string>): seq<Input> {
    Filled(inputs, data, data.Keys)
  }

  /**
   * Merging assigns each key's value to the first input with that id, as
   * that input's type keeps it, and leaves every other input, and every
   * attribute but the value, as it was.
   */
  lemma MergedSpec(inputs: seq<Input>, data: map<string, string>, j: nat)
    requires j < |inputs|
    ensures |Merged(inputs, data)| == |inputs|
    ensures var x, y := inputs[j], Merged(inputs, data)[j];
      && y.(value := x.value) == x
      && (if x.id in data && NoIdBefore(inputs, x.id, j) then y.value == Sanitize(x.kind, data[x.id]) else y == x)
  {
    var x := inputs[j];
    var r := FirstWithId(inputs, x.id);
    assert r.Some?;
    assert r.value <= j;
    if NoIdBefore(inputs, x.id, j) {
      assert r.value == j;
    } else {
      assert r.value != j;
    }
  }

  /** One key of the merge loop. */
  lemma FillStep(inputs0: seq<Input>, data: map<string, string>, done: set<string>, key: string, inputs: seq<Input>)
    requires inputs == Filled(inputs0, data, done) && key in data && key !in done
    ensures var at := FirstWithId(inputs, key);
      && (at.Some? ==>
            Filled(inputs0, data, done + {key}) ==
            inputs[at.value := inputs[at.value].(value := Sanitize(inputs[at.value].kind, data[key]))])
      && (at.None? ==> Filled(inputs0, data, done + {key}) == inputs)
  {
    FirstWithIdIgnoresValues(inputs, inputs0, key);
    var at := FirstWithId(inputs, key);
    var next := Filled(inputs0, data, done + {key});
    if at.Some? {
      var want := inputs[at.value := inputs[at.value].(value := Sanitize(inputs[at.value].kind, data[key]))];
      forall j | 0 <= j < |inputs| ensures next[j] == want[j] {
        if j != at.value && inputs0[j].id == key {
          assert FirstWithId(inputs0, key) != Some(j);
        }
      }
      assert next == want;
    } else {
      forall j | 0 <= j < |inputs| ensures next[j] == inputs[j] {
        assert inputs0[j].id != key;
      }
      assert next == inputs;
    }
  }

  /** Template fields with non-empty, pairwise different names. */
  ghost predicate DistinctNames(fields: seq<Field>) {
    && (forall i :: 0 <= i < |fields| ==> fields[i].name != "")
    && (forall i, j :: 0 <= i < j < |fields| ==> fields[i].name != fields[j].name)
  }

  /** The input a voice value for field `i` ends in, on a freshly generated form. */
  lemma MergedFormAt(fields: seq<Field>, data: map<string, string>, i: nat)
    requires DistinctNames(fields) && i < |fields| && fields[i].name in data
    ensures |Merged(FormFor(fields), data)| == |fields|
    ensures Merged(FormFor(fields), data)[i] == InputFor(fields[i]).(value := Sanitize(InputFor(fields[i]).kind, data[fields[i].name]))
  {
    var form := FormFor(fields);
    assert NoIdBefore(form, fields[i].name, i) by {
      forall k | 0 <= k < i ensures form[k].id != fields[i].name {
        assert form[k].id == fields[k].name;
      }
    }
    MergedSpec(form, data, i);
  }

  /**
   * On a form generated from a template with distinct non-empty names,
   * filling in a record for exactly those names and submitting gives back the
   * record, except that a number input drops a value that is not a number.
   */
  lemma RoundTrip(fields: seq<Field>, data: map<string, string>)
    requires DistinctNames(fields) && data.Keys == Names(fields)
    ensures var entries := FormEntries(Merged(FormFor(fields), data));
      && entries.Keys == data.Keys
      && forall i :: 0 <= i < |fields| ==>
           entries[fields[i].name] == Sanitize(InputFor(fields[i]).kind, data[fields[i].name])
  {
    var form := Merged(FormFor(fields), data);
    var entries := FormEntries(form);
    assert |form| == |fields|;
    forall name ensures name in entries <==> name in data {
      FormEntriesKeys(form, name);
      if name in data {
        var f :| f in fields && f.name == name;
        var i :| 0 <= i < |fields| && fields[i] == f;
        MergedFormAt(fields, data, i);
        assert form[i].name == name;
      }
      if name != "" && HasNamed(form, name) {
        var i :| 0 <= i < |form| && form[i].name == name;
        MergedFormAt(fields, data, i);
        assert fields[i] in fields;
      }
    }
    forall i | 0 <= i < |fields|
      ensures entries[fields[i].name] == Sanitize(InputFor(fields[i]).kind, data[fields[i].name])
    {
      assert fields[i] in fields;
      MergedFormAt(fields, data, i);
      forall l | i < l < |form| ensures form[l].name != form[i].name {
        MergedFormAt(fields, data, l);
      }
      FormEntriesLast(form, i);
    }
  }

  /** What the form submits for a field after a voice run with result `r` filled it. */
  function VoiceEntry(f: Field, r: FieldResult): string {
    if f.fieldType == "integer" then
      if r.Collected? then StoredValue("integer", r) else ""
    else StripLineBreaks(StoredValue(FieldTypeOf(f), r))
  }

  /**
   * A completed voice session on a freshly generated form with distinct
   * non-empty names, followed by a submit, sends one entry per field: the
   * stored answer, where an `integer` field sends its first run of digits
   * (empty when it was not answered) and any other field its answer without
   * line breaks.
   */
  lemma VoiceThenSubmit(fields: seq<Field>, script: seq<Settled<string>>)
    requires DistinctNames(fields)
    requires CollectAll(Ask, fields, script).record.Some?
    ensures var data := CollectAll(Ask, fields, script).record.value;
      var entries := FormEntries(Merged(FormFor(fields), data));
      var runs := Runs(Ask, fields, script);
      && |runs| == |fields|
      && entries.Keys == Names(fields)
      && forall i :: 0 <= i < |fields| ==> entries[fields[i].name] == VoiceEntry(fields[i], runs[i].result)
  {
    var data := CollectAll(Ask, fields, script).record.value;
    var runs := Runs(Ask, fields, script);
    AskWellBehaved();
    CollectAllCompleted(Ask, fields, script);
    RoundTrip(fields, data);
    forall i | 0 <= i < |fields|
      ensures FormEntries(Merged(FormFor(fields), data))[fields[i].name] == VoiceEntry(fields[i], runs[i].result)
    {
      assert NotNamedFrom(fields, i + 1, fields[i].name);
      var v := data[fields[i].name];
      assert v == StoredValue(FieldTypeOf(fields[i]), runs[i].result);
      if fields[i].fieldType == "integer" {
        var r := runs[i].result;
        RunsScriptAt(Ask, fields, script, i);
        RunFieldSpec(fields[i], DefaultMaxRetries, Advance(script, ListensBefore(runs, i)));
        if r.Collected? {
          StoredValueSpec("integer", r.transcript);
          DigitsAreNumber(v);
        } else {
          NotProvidedIsNoNumber();
        }
      }
    }
  }

  /**
   * A template with two fields of the same name loses the answer: it is
   * written to the first input with that id, while the form data takes the
   * last input of that name, which stays empty.
   */
  lemma DuplicateNameLosesAnswer(fields: seq<Field>, data: map<string, string>, i: nat, l: nat)
    requires i < l < |fields| && fields[i].name == fields[l].name != ""
    requires NotNamedFrom(fields, l + 1, fields[l].name)
    ensures var entries := FormEntries(Merged(FormFor(fields), data));
      fields[l].name in entries && entries[fields[l].name] == ""
  {
    var name := fields[l].name;
    var form := FormFor(fields);
    var merged := Merged(form, data);
    MergedSpec(form, data, l);
    assert !NoIdBefore(form, name, l) by {
      assert form[i].id == name;
    }
    forall m | l < m < |merged| ensures merged[m].name != merged[l].name {
      MergedSpec(form, data, m);
      assert form[m].name == fields[m].name;
    }
    FormEntriesLast(merged, l);
  }

  // ---------------------------------------------------------------------------
  // The page
  // ---------------------------------------------------------------------------

  /** Whether a detection reply has a face to work with. */
  predicate FoundFace(detection: Settled<Detection>) {
    detection.Resolved? && detection.value.success && |detection.value.faces| > 0
  }

  /** The recognition panel for a reply: the stored data only for a recognised face that came with a user. */
  function PanelFor(r: Recognition): RecognitionPanel {
    if r.recognized && r.user.Some? then KnownUser(r.user.value) else NewFace
  }

  /** The face sent with a registration: the stored one, with the gender of the current frame's first face. */
  function RegisteredFace(stored: Face, current: seq<Face>): Face
    requires current != []
  {
    stored.(gender := current[0].gender)
  }

  /**
   * The page: the module-level variables of the controller and the state of
   * the elements it drives. `voice` is the collector the voice button uses.
   */
  class Page {
    const voice: VoiceInput
    var indicator: Indicator
    var userCount: Option<int>
    var modelName: Option<string>
    var dataTemplate: Option<Template>
    var currentFaces: seq<Face>
    var currentImageData: Option<string>
    var startCameraDisabled: bool
    var captureDisabled: bool
    var voiceCollectDisabled: bool
    var detectionShown: Option<Face>
    var recognitionShown: Option<RecognitionPanel>
    var formVisible: bool
    var inputs: seq<Input>
    var formFace: Option<Face>
    var overlay: seq<Face>
    var requests: seq<Request>

    /** The page as loaded: buttons as the markup declares them, nothing shown, nothing sent. */
    constructor (voice: VoiceInput)
      ensures this.voice == voice
      ensures indicator == Indicator(ConnectingMessage, false)
      ensures userCount.None? && modelName.None? && dataTemplate.None?
      ensures currentFaces == [] && currentImageData.None?
      ensures !startCameraDisabled && captureDisabled && !voiceCollectDisabled
      ensures detectionShown.None? && recognitionShown.None?
      ensures !formVisible && inputs == [] && formFace.None? && overlay == [] && requests == []
    {
      this.voice := voice;
      indicator := Indicator(ConnectingMessage, false);
      userCount, modelName, dataTemplate := None, None, None;
      currentFaces, currentImageData := [], None;
      startCameraDisabled, captureDisabled, voiceCollectDisabled := false, true, false;
      detectionShown, recognitionShown := None, None;
      formVisible, inputs, formFace, overlay, requests := false, [], None, [], [];
    }

    /** `init`: the server status, then the template; any failure leaves the page offline. */
    method Init(status: Settled<ServerStatus>, template: Settled<Template>)
      modifies this`indicator, this`userCount, this`modelName, this`dataTemplate, this`requests
      ensures status.Rejected? ==>
        && indicator == Indicator(OfflineMessage, false)
        && requests == old(requests) + [StatusRequest]
        && userCount == old(userCount) && modelName == old(modelName) && dataTemplate == old(dataTemplate)
      ensures status.Resolved? ==>
        && requests == old(requests) + [StatusRequest] + [TemplateRequest]
        && userCount == Some(status.value.usersCount) && modelName == Some(status.value.model)
        && indicator == (if template.Resolved? then Indicator(OnlineMessage, true) else Indicator(OfflineMessage, false))
        && dataTemplate == (if template.Resolved? then Some(template.value) else old(dataTemplate))
    {
      indicator := Indicator(ConnectingMessage, false);
      requests := requests + [StatusRequest];
      if status.Rejected? {
        indicator := Indicator(OfflineMessage, false);
        return;
      }
      indicator := Indicator(OnlineMessage, true);
      userCount := Some(status.value.usersCount);
      modelName := Some(status.value.model);
      requests := requests + [TemplateRequest];
      if template.Rejected? {
        indicator := Indicator(OfflineMessage, false);
        return;
      }
      dataTemplate := Some(template.value);
    }

    /** The start-camera handler: only a camera that started changes the page. */
    method StartCamera(started: bool)
      modifies this`startCameraDisabled, this`captureDisabled, this`indicator
      ensures started ==> startCameraDisabled && !captureDisabled && indicator == Indicator(CameraMessage, true)
      ensures !started ==>
        startCameraDisabled == old(startCameraDisabled) && captureDisabled == old(captureDisabled) && indicator == old(indicator)
    {
      if started {
        startCameraDisabled := true;
        captureDisabled := false;
        indicator := Indicator(CameraMessage, true);
      }
    }

    /** `showRegistrationForm`: one input per template field, the face kept for the registration, the form shown. */
    method ShowRegistrationForm(face: Face)
      modifies this`inputs, this`formFace, this`formVisible
      ensures inputs == TemplateForm(dataTemplate) && formFace == Some(face) && formVisible
    {
      var generated: seq<Input> := [];
      if dataTemplate.Some? && dataTemplate.value.fields.Some? {
        var fields := dataTemplate.value.fields.value;
        for i := 0 to |fields|
          invariant |generated| == i
          invariant forall k :: 0 <= k < i ==> generated[k] == InputFor(fields[k])
        {
          generated := generated + [InputFor(fields[i])];
        }
        assert generated == FormFor(fields);
      }
      inputs := generated;
      formFace := Some(face);
      formVisible := true;
    }

    /** `recognizeFace`: a known face hides the form, a new one opens it; a failed request changes nothing more. */
    method RecognizeFace(face: Face, recognition: Settled<Recognition>)
      modifies this`requests, this`recognitionShown, this`inputs, this`formFace, this`formVisible
      ensures requests == old(requests) + [RecognizeRequest(currentImageData, face)]
      ensures recognition.Rejected? ==>
        recognitionShown == old(recognitionShown) && formVisible == old(formVisible) && inputs == old(inputs) && formFace == old(formFace)
      ensures recognition.Resolved? && recognition.value.recognized ==>
        recognitionShown == Some(PanelFor(recognition.value)) && !formVisible && inputs == old(inputs) && formFace == old(formFace)
      ensures recognition.Resolved? && !recognition.value.recognized ==>
        recognitionShown == Some(NewFace) && formVisible && inputs == TemplateForm(dataTemplate) && formFace == Some(face)
    {
      requests := requests + [RecognizeRequest(currentImageData, face)];
      if recognition.Rejected? {
        return;
      }
      if recognition.value.recognized {
        recognitionShown := Some(PanelFor(recognition.value));
        formVisible := false;
      } else {
        recognitionShown := Some(NewFace);
        ShowRegistrationForm(face);
      }
    }

    /**
     * The capture handler: the frame is sent for detection and the first face
     * found for recognition; the form changes only when that face is new, and
     * the button ends enabled whatever happens.
     */
    method Capture(frame: string, detection: Settled<Detection>, recognition: Settled<Recognition>)
      modifies this`captureDisabled, this`currentImageData, this`requests, this`currentFaces, this`overlay
      modifies this`detectionShown, this`recognitionShown, this`inputs, this`formFace, this`formVisible
      ensures !captureDisabled && currentImageData == Some(frame)
      ensures !FoundFace(detection) ==>
        && requests == old(requests) + [DetectRequest(frame)]
        && overlay == (if detection.Resolved? then [] else old(overlay))
        && currentFaces == old(currentFaces) && detectionShown == old(detectionShown)
        && recognitionShown == old(recognitionShown) && formVisible == old(formVisible)
        && inputs == old(inputs) && formFace == old(formFace)
      ensures FoundFace(detection) ==>
        var faces := detection.value.faces;
        && requests == old(requests) + [DetectRequest(frame)] + [RecognizeRequest(Some(frame), faces[0])]
        && currentFaces == faces && overlay == faces && detectionShown == Some(faces[0])
        && (recognition.Rejected? ==>
              recognitionShown == old(recognitionShown) && formVisible == old(formVisible)
              && inputs == old(inputs) && formFace == old(formFace))
        && (recognition.Resolved? && recognition.value.recognized ==>
              recognitionShown == Some(PanelFor(recognition.value)) && !formVisible
              && inputs == old(inputs) && formFace == old(formFace))
        && (recognition.Resolved? && !recognition.value.recognized ==>
              recognitionShown == Some(NewFace) && formVisible
              && inputs == TemplateForm(dataTemplate) && formFace == Some(faces[0]))
    {
      captureDisabled := true;
      currentImageData := Some(frame);
      requests := requests + [DetectRequest(frame)];
      if FoundFace(detection) {
        var faces := detection.value.faces;
        currentFaces := faces;
        overlay := faces;
        detectionShown := Some(faces[0]);
        RecognizeFace(faces[0], recognition);
      } else if detection.Resolved? {
        overlay := [];
      }
      captureDisabled := false;
    }

    /** The loop assigning each collected value to the element with its key as id, in any key order. */
    method FillForm(data: map<string, string>)
      modifies this`inputs
      ensures inputs == Merged(old(inputs), data)
    {
      ghost var inputs0 := inputs;
      var pending := data.Keys;
      ghost var done: set<string> := {};
      while pending != {}
        invariant pending + done == data.Keys && pending !! done
        invariant inputs == Filled(inputs0, data, done)
        decreases pending
      {
        var key :| key in pending;
        FillStep(inputs0, data, done, key, inputs);
        var at := FirstWithId(inputs, key);
        if at.Some? {
          var j := at.value;
          inputs := inputs[j := inputs[j].(value := Sanitize(inputs[j].kind, data[key]))];
        }
        pending := pending - {key};
        done := done + {key};
      }
    }

    /**
     * The voice-collection handler: without a template it fails at once, with
     * a template without fields it fails after the introduction; otherwise the
     * collected record fills the form and the outcome is announced. The button
     * ends enabled.
     */
    method VoiceCollect()
      modifies this`voiceCollectDisabled, this`inputs, voice
      ensures !voiceCollectDisabled
      ensures dataTemplate.None? ==>
        inputs == old(inputs) && voice.spoken == old(voice.spoken) && voice.script == old(voice.script)
      ensures dataTemplate.Some? && dataTemplate.value.fields.None? ==>
        inputs == old(inputs) && voice.spoken == old(voice.spoken) + [IntroNotice] && voice.script == old(voice.script)
      ensures dataTemplate.Some? && dataTemplate.value.fields.Some? ==>
        var s := CollectAll(Ask, dataTemplate.value.fields.value, old(voice.script));
        && voice.script == Advance(old(voice.script), s.listens)
        && (s.record.Some? ==> inputs == Merged(old(inputs), s.record.value) && voice.spoken == old(voice.spoken) + s.speech + [CollectedReply])
        && (s.record.None? ==> inputs == old(inputs) && voice.spoken == old(voice.spoken) + s.speech + [CancelledReply])
    {
      voiceCollectDisabled := true;
      if dataTemplate.None? {
        voiceCollectDisabled := false;
        return;
      }
      match dataTemplate.value.fields {
        case None =>
          voice.Speak(IntroNotice);
        case Some(fields) =>
          var data := voice.CollectAllData(fields);
          if data.Some? {
            FillForm(data.value);
            voice.Speak(CollectedReply);
          } else {
            voice.Speak(CancelledReply);
          }
      }
      voiceCollectDisabled := false;
    }

    /** `new FormData(form)` read into a plain record. */
    method ReadForm() returns (userData: map<string, string>)
      ensures userData == FormEntries(inputs)
    {
      userData := map[];
      for i := 0 to |inputs|
        invariant userData == FormEntries(inputs[..i])
      {
        assert inputs[..i + 1][..i] == inputs[..i];
        if inputs[i].name != "" {
          userData := userData[inputs[i].name := inputs[i].value];
        }
      }
      assert inputs[..|inputs|] == inputs;
    }

    /**
     * The submit handler: without a stored face or a current face it fails
     * before sending; otherwise the form data is sent for registration, and
     * only a successful registration followed by a status reply updates the
     * count and resets the page.
     */
    method Submit(registration: Settled<Registration>, status: Settled<ServerStatus>)
      modifies this`requests, this`userCount, this`inputs, this`formVisible, this`overlay
      ensures formFace.None? || currentFaces == [] ==>
        requests == old(requests) && userCount == old(userCount) && inputs == old(inputs)
        && formVisible == old(formVisible) && overlay == old(overlay)
      ensures formFace.Some? && currentFaces != [] ==>
        var sent := old(requests) + [RegisterRequest(currentImageData, RegisteredFace(formFace.value, currentFaces), FormEntries(old(inputs)))];
        var registered := registration.Resolved? && registration.value.success;
        && requests == (if registered then sent + [StatusRequest] else sent)
        && (registered && status.Resolved? ==>
              userCount == Some(status.value.usersCount) && inputs == Cleared(old(inputs)) && !formVisible && overlay == [])
        && (!(registered && status.Resolved?) ==>
              userCount == old(userCount) && inputs == old(inputs) && formVisible == old(formVisible) && overlay == old(overlay))
    {
      var userData := ReadForm();
      if formFace.None? || currentFaces == [] {
        return;
      }
      var face := RegisteredFace(formFace.value, currentFaces);
      requests := requests + [RegisterRequest(currentImageData, face, userData)];
      if registration.Rejected? || !registration.value.success {
        return;
      }
      requests := requests + [StatusRequest];
      if status.Rejected? {
        return;
      }
      userCount := Some(status.value.usersCount);
      inputs := Cleared(inputs);
      formVisible := false;
      overlay := [];
    }

    /** The cancel handler: the form reset and hidden, the overlay cleared. */
    method Cancel()
      modifies this`inputs, this`formVisible, this`overlay
      ensures inputs == Cleared(old(inputs)) && !formVisible && overlay == []
    {
      inputs := Cleared(inputs);
      formVisible := false;
      overlay := [];
    }
  }
}
