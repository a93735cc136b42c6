/**
 * The admin settings page: three validators, a per-field update that records the validator's
 * verdict but applies the value regardless, a PRO gate on private mode, and an auto-save that
 * skips its first run and posts the whole settings object only while no error is recorded.
 */
module AdminSettings {
  import opened Wrappers

  /** The recording settings the page edits. */
  datatype Settings = Settings(
    datasetName: string,
    freq: real,
    videoSize: (real, real),
    videoCodec: string,
    taskInstruction: string,
    episodeFormat: string,
    hfPrivateMode: bool)

  /** The editable fields, each naming one member of `Settings`. */
  datatype Key = DatasetName | Freq | VideoSize | VideoCodec | TaskInstruction | EpisodeFormat | HfPrivateMode

  /** The value a field holds, tagged by its shape. */
  datatype FieldValue = Text(s: string) | Number(n: real) | Size(w: real, h: real) | Flag(b: bool)

  /** One call of `handleSettingChange(key, value)`, with the value typed by its key. */
  datatype Change =
    | SetDatasetName(name: string)
    | SetFreq(freq: real)
    | SetVideoSize(w: real, h: real)
    | SetVideoCodec(codec: string)
    | SetTaskInstruction(text: string)
    | SetEpisodeFormat(format: string)
    | SetHfPrivateMode(on: bool)
  {
    function Key(): (k: Key) {
      match this
      case SetDatasetName(_) => DatasetName
      case SetFreq(_) => Freq
      case SetVideoSize(_, _) => VideoSize
      case SetVideoCodec(_) => VideoCodec
      case SetTaskInstruction(_) => TaskInstruction
      case SetEpisodeFormat(_) => EpisodeFormat
      case SetHfPrivateMode(_) => HfPrivateMode
    }

    function Value(): (v: FieldValue) {
      match this
      case SetDatasetName(v) => Text(v)
      case SetFreq(v) => Number(v)
      case SetVideoSize(w, h) => Size(w, h)
      case SetVideoCodec(v) => Text(v)
      case SetTaskInstruction(v) => Text(v)
      case SetEpisodeFormat(v) => Text(v)
      case SetHfPrivateMode(v) => Flag(v)
    }
  }

  /** The value of field `k` of `s`. */
  function Field(s: Settings, k: Key): (v: FieldValue) {
    match k
    case DatasetName => Text(s.datasetName)
    case Freq => Number(s.freq)
    case VideoSize => Size(s.videoSize.0, s.videoSize.1)
    case VideoCodec => Text(s.videoCodec)
    case TaskInstruction => Text(s.taskInstruction)
    case EpisodeFormat => Text(s.episodeFormat)
    case HfPrivateMode => Flag(s.hfPrivateMode)
  }

  const DatasetNameError := "Dataset name can only contain letters, numbers, ., _, -"
  const FrequencyError := "Frequency must be greater than 0"
  const VideoSizeError := "Video dimensions must be positive numbers"
  const PrivateModeError := "Private mode requires PRO subscription"

  /** The character class `[a-zA-Z0-9._-]`. */
  predicate DatasetNameChar(c: char) {
    ('a' <= c <= 'z') || ('A' <= c <= 'Z') || ('0' <= c <= '9') || c == '.' || c == '_' || c == '-'
  }

  /** `/^[a-zA-Z0-9._-]+$/.test(s)`: one or more characters, consumed one class match at a time. */
  function MatchesDatasetPattern(s: string): (r: bool)
    ensures r <==> |s| > 0 && forall i :: 0 <= i < |s| ==> DatasetNameChar(s[i])
    decreases |s|
  {
    if |s| == 0 then false
    else if !DatasetNameChar(s[0]) then false
    else if |s| == 1 then true
    else
      var rest := MatchesDatasetPattern(s[1..]);
      assert forall i :: 1 <= i < |s| ==> s[i] == s[1..][i - 1];
      rest
  }

  function ValidateDatasetName(value: string): (error: string)
    ensures error == "" <==> |value| > 0 && forall i :: 0 <= i < |value| ==> DatasetNameChar(value[i])
    ensures error != "" ==> error == DatasetNameError
  {
    if MatchesDatasetPattern(value) then "" else DatasetNameError
  }

  function ValidateFrequency(value: real): (error: string)
    ensures error == "" <==> value > 0.0
    ensures error != "" ==> error == FrequencyError
  {
    if value > 0.0 then "" else FrequencyError
  }

  function ValidateVideoSize(w: real, h: real): (error: string)
    ensures error == "" <==> w > 0.0 && h > 0.0
    ensures error != "" ==> error == VideoSizeError
  {
    if w > 0.0 && h > 0.0 then "" else VideoSizeError
  }

  /**
   * The error `handleSettingChange` records for `c`: one of the page's four messages or "", and
   * always "" for the fields with no validator.
   */
  function ChangeError(c: Change, proUser: bool): (error: string)
    ensures error in {"", DatasetNameError, FrequencyError, VideoSizeError, PrivateModeError}
    ensures c.Key() in {VideoCodec, TaskInstruction, EpisodeFormat} ==> error == ""
  {
    match c
    case SetDatasetName(v) => ValidateDatasetName(v)
    case SetFreq(v) => ValidateFrequency(v)
    case SetVideoSize(w, h) => ValidateVideoSize(w, h)
    case SetHfPrivateMode(on) => if on && !proUser then PrivateModeError else ""
    case _ => ""
  }

  /**
   * The change `handleSettingChange` actually stores: the same field, and the same value except
   * when a user without PRO turns private mode on.
   */
  function StoredChange(c: Change, proUser: bool): (stored: Change)
    ensures stored.Key() == c.Key()
    ensures stored != c <==> c == SetHfPrivateMode(true) && !proUser
    ensures !proUser ==> stored != SetHfPrivateMode(true)
  {
    if c == SetHfPrivateMode(true) && !proUser then SetHfPrivateMode(false) else c
  }

  /** `{ ...settings, [key]: value }`: a change writes exactly its own field, with exactly its own value. */
  function Apply(s: Settings, c: Change): (s': Settings)
    ensures Field(s', c.Key()) == c.Value()
    ensures forall k :: k != c.Key() ==> Field(s', k) == Field(s, k)
  {
    match c
    case SetDatasetName(v) => s.(datasetName := v)
    case SetFreq(v) => s.(freq := v)
    case SetVideoSize(w, h) => s.(videoSize := (w, h))
    case SetVideoCodec(v) => s.(videoCodec := v)
    case SetTaskInstruction(v) => s.(taskInstruction := v)
    case SetEpisodeFormat(v) => s.(episodeFormat := v)
    case SetHfPrivateMode(v) => s.(hfPrivateMode := v)
  }

  /** Whether field `k` of `s` passes its validator; the fields without one always pass. */
  predicate FieldValid(s: Settings, k: Key) {
    match k
    case DatasetName => MatchesDatasetPattern(s.datasetName)
    case Freq => s.freq > 0.0
    case VideoSize => s.videoSize.0 > 0.0 && s.videoSize.1 > 0.0
    case _ => true
  }

  /** `!Object.values(errors).some((e) => e)`. */
  predicate NoErrors(errors: map<Key, string>) {
    forall k :: k in errors ==> errors[k] == ""
  }

  /** A value is stored as given even when its validator rejects it; only the private-mode gate alters a value. */
  lemma {:induction false} StoredDespiteError(s: Settings, c: Change, proUser: bool)
    requires c != SetHfPrivateMode(true) || proUser
    ensures Field(Apply(s, StoredChange(c, proUser)), c.Key()) == c.Value()
  {
  }

  /** For a stored, validated field, the recorded error is empty exactly when the stored value is valid. */
  lemma {:induction false} ErrorMatchesStoredValue(s: Settings, c: Change, proUser: bool)
    ensures ChangeError(c, proUser) == "" ==> FieldValid(Apply(s, StoredChange(c, proUser)), c.Key())
    ensures c.Key() in {DatasetName, Freq, VideoSize} ==>
      (ChangeError(c, proUser) == "" <==> FieldValid(Apply(s, StoredChange(c, proUser)), c.Key()))
  {
    match c
    case SetDatasetName(v) =>
      assert Apply(s, StoredChange(c, proUser)).datasetName == v;
    case _ =>
  }

  /** Without PRO, turning private mode on stores it off and records the PRO error; with PRO it is stored on. */
  lemma PrivateModeGate(s: Settings, proUser: bool)
    ensures !proUser ==> Apply(s, StoredChange(SetHfPrivateMode(true), proUser)).hfPrivateMode == false
    ensures !proUser ==> ChangeError(SetHfPrivateMode(true), proUser) == PrivateModeError
    ensures proUser ==> Apply(s, StoredChange(SetHfPrivateMode(true), proUser)).hfPrivateMode == true
    ensures proUser ==> ChangeError(SetHfPrivateMode(true), proUser) == ""
  {
  }

  /** Forcing private mode off leaves every other field as it was. */
  lemma PrivateModeOffKeepsOtherFields(s: Settings)
    ensures forall k :: k != HfPrivateMode ==> Field(s.(hfPrivateMode := false), k) == Field(s, k)
    ensures !s.(hfPrivateMode := false).hfPrivateMode
  {
  }

  /** The page's state: the settings cache, the recorded errors, the first-run flag and the posts sent. */
  class AdminPage {
    var settings: Option<Settings>
    var errors: map<Key, string>
    var isInitialMount: bool
    var posts: seq<Settings>

    /**
     * Errors are recorded only once settings are loaded, and a field whose recorded error is empty
     * holds a value its validator accepts.
     */
    ghost predicate Valid()
      reads this
    {
      && (settings.None? ==> errors == map[])
      && (forall k :: k in errors && errors[k] == "" ==> settings.Some? && FieldValid(settings.value, k))
    }

    constructor ()
      ensures Valid()
      ensures settings.None? && errors == map[] && isInitialMount && posts == []
    {
      settings, errors, isInitialMount, posts := None, map[], true, [];
    }

    /** The first read of `/admin/settings` completes. */
    method SettingsArrive(s: Settings)
      requires Valid() && settings.None?
      modifies this`settings
      ensures Valid() && settings == Some(s)
    {
      settings := Some(s);
    }

    /** `handleSettingChange(key, value)`. */
    method HandleSettingChange(c: Change, proUser: bool)
      requires Valid()
      modifies this`settings, this`errors
      ensures Valid()
      ensures old(settings).None? ==> settings == old(settings) && errors == old(errors)
      ensures old(settings).Some? ==>
        && settings == Some(Apply(old(settings).value, StoredChange(c, proUser)))
        && errors == old(errors)[c.Key() := ChangeError(c, proUser)]
    {
      if settings.None? {
        return;
      }
      var error := ChangeError(c, proUser);
      var finalChange := StoredChange(c, proUser);
      var old_s := settings.value;
      errors := errors[c.Key() := error];
      settings := Some(Apply(old_s, finalChange));
      ErrorMatchesStoredValue(old_s, c, proUser);
      forall k | k in errors && errors[k] == "" ensures FieldValid(settings.value, k) {
        if k != c.Key() {
          assert Field(settings.value, k) == Field(old_s, k);
        }
      }
    }

    /** The auto-save effect, run whenever the settings or the errors change. */
    method AutoSaveEffect()
      requires Valid()
      modifies this`isInitialMount, this`posts
      ensures Valid()
      ensures old(settings).None? ==> isInitialMount == old(isInitialMount) && posts == old(posts)
      ensures settings.Some? && old(isInitialMount) ==> !isInitialMount && posts == old(posts)
      ensures settings.Some? && !old(isInitialMount) ==>
        !isInitialMount && posts == old(posts) + (if NoErrors(errors) then [settings.value] else [])
      ensures posts != old(posts) ==> forall k :: k in errors ==> FieldValid(posts[|posts| - 1], k)
    {
      if settings.None? {
        return;
      }
      if isInitialMount {
        isInitialMount := false;
      } else if NoErrors(errors) {
        posts := posts + [settings.value];
      }
    }

    /** The effect that turns private mode off for a user who is not PRO. */
    method ForcePrivateModeOffEffect(proUser: bool)
      requires Valid()
      modifies this`settings
      ensures Valid()
      ensures old(settings).Some? && !proUser && old(settings).value.hfPrivateMode ==>
        settings == Some(old(settings).value.(hfPrivateMode := false))
      ensures !(old(settings).Some? && !proUser && old(settings).value.hfPrivateMode) ==> settings == old(settings)
    {
      if settings.Some? && !proUser && settings.value.hfPrivateMode {
        var s := settings.value;
        settings := Some(s.(hfPrivateMode := false));
        PrivateModeOffKeepsOtherFields(s);
        forall k | k in errors && errors[k] == "" ensures FieldValid(settings.value, k) {
          assert Field(settings.value, k) == Field(s, k) || k == HfPrivateMode;
        }
      }
    }
  }
}
