/**
 * The AI training page. Its editor holds the training parameters as text, in a slot tied to the
 * selected dataset and model type: the slot is emptied when that selection changes, seeded once
 * from the fetched training info while it is empty, and cleared on reset. Submitting runs a chain
 * of checks and then posts one of two start requests, driving the Train button through
 * idle, loading and success.
 */
module Training {
  import opened Wrappers
  import opened JsValues

  /** The model types the selector offers. */
  datatype ModelType = Pi05 | Gr00t | Act | ActBbox | SmolVla | Custom {
    /** The string the page uses for the type. */
    function Name(): (name: string) {
      match this
      case Pi05 => "pi0.5"
      case Gr00t => "gr00t"
      case Act => "ACT"
      case ActBbox => "ACT_BBOX"
      case SmolVla => "smolvla"
      case Custom => "custom"
    }
  }

  const KeyPrefix := "training-params-"

  /** The localStorage key of the editor slot: `training-params-<dataset>-<modelType>`. */
  function StorageKey(dataset: string, modelType: ModelType): (key: string)
    ensures |key| > |KeyPrefix| + |dataset|
    ensures key[..|KeyPrefix|] == KeyPrefix
    ensures key[|key| - |modelType.Name()|..] == modelType.Name()
  {
    KeyPrefix + dataset + "-" + modelType.Name()
  }

  /** Where the dataset and the model type sit in a storage key. */
  lemma StorageKeyLayout(dataset: string, modelType: ModelType)
    ensures var k := StorageKey(dataset, modelType);
      && |k| == |KeyPrefix| + |dataset| + 1 + |modelType.Name()|
      && k[|k| - 1] == modelType.Name()[|modelType.Name()| - 1]
      && k[..|KeyPrefix|] == KeyPrefix
      && k[|KeyPrefix|..|KeyPrefix| + |dataset|] == dataset
      && k[|KeyPrefix| + |dataset|] == '-'
      && k[|KeyPrefix| + |dataset| + 1..] == modelType.Name()
  {
  }

  /**
   * Two selections share a storage slot only if they are the same selection: no model type's name
   * is a suffix of another's (their last characters already differ), so the key can be split back
   * into dataset and model type.
   */
  lemma StorageKeyInjective(d1: string, m1: ModelType, d2: string, m2: ModelType)
    ensures StorageKey(d1, m1) == StorageKey(d2, m2) <==> d1 == d2 && m1 == m2
  {
    if StorageKey(d1, m1) == StorageKey(d2, m2) {
      StorageKeyLayout(d1, m1);
      StorageKeyLayout(d2, m2);
      assert m1 == m2;
      assert |d1| == |d2|;
    }
  }

  datatype TrainingState = Idle | Loading | Success

  datatype InfoStatus = StatusOk | StatusError

  /** The answer of `/training/info` for one selection. */
  datatype TrainingInfo = TrainingInfo(status: InfoStatus, message: Option<string>, trainingBody: Json)

  /** The cache key of the training-info read; absent (no read) for a non-custom type without a dataset. */
  function InfoFetchKey(dataset: string, modelType: ModelType): (k: Option<(string, ModelType)>)
    ensures k.Some? <==> modelType == Custom || dataset != ""
    ensures k.Some? ==> k.value == (dataset, modelType)
  {
    if modelType == Custom || dataset != "" then Some((dataset, modelType)) else None
  }

  /**
   * What the editor would be seeded from: the `training_params` member for the structured types,
   * and the whole `training_body` for the custom type once it has a `custom_command`.
   */
  function SeedSource(modelType: ModelType, info: Option<TrainingInfo>): (src: Option<Json>)
    ensures info.None? ==> src.None?
    ensures info.Some? && modelType != Custom ==>
      (src.Some? <==> TruthyOpt(Member(info.value.trainingBody, "training_params"))) &&
      (src.Some? ==> src == Member(info.value.trainingBody, "training_params"))
    ensures info.Some? && modelType == Custom ==>
      (src.Some? <==> TruthyOpt(Member(info.value.trainingBody, "custom_command"))) &&
      (src.Some? ==> src.value == info.value.trainingBody)
  {
    match info
    case None => None
    case Some(i) =>
      var body := i.trainingBody;
      if modelType != Custom then
        if TruthyOpt(Member(body, "training_params")) then Member(body, "training_params") else None
      else
        if TruthyOpt(Member(body, "custom_command")) then Some(body) else None
  }

  /** The seed-when-empty effect: an empty editor takes the serialised seed source, any other text stays. */
  function Seeded(text: string, modelType: ModelType, info: Option<TrainingInfo>, stringify: Json -> string): (text': string)
    ensures text == "" && SeedSource(modelType, info).Some? ==> text' == stringify(SeedSource(modelType, info).value)
    ensures text == "" && SeedSource(modelType, info).None? ==> text' == ""
  {
    var src := SeedSource(modelType, info);
    if text == "" && src.Some? then stringify(src.value) else text
  }

  /** Text already in the editor, typed or restored from the cache, is never overwritten by a seed. */
  lemma SeedNeverOverwrites(text: string, modelType: ModelType, info: Option<TrainingInfo>, stringify: Json -> string)
    requires text != ""
    ensures Seeded(text, modelType, info, stringify) == text
  {
  }

  /** The seeding effect may run any number of times: after the first run, further runs change nothing. */
  lemma SeedIsIdempotent(text: string, modelType: ModelType, info: Option<TrainingInfo>, stringify: Json -> string)
    ensures var once := Seeded(text, modelType, info, stringify);
      Seeded(once, modelType, info, stringify) == once
  {
  }

  /**
   * The custom type is seeded from the whole body, not from its `custom_command` member, whatever
   * the answer's status and message.
   */
  lemma CustomSeedIsWholeBody(status: InfoStatus, message: Option<string>, body: Json, stringify: Json -> string)
    requires TruthyOpt(Member(body, "custom_command"))
    ensures Seeded("", Custom, Some(TrainingInfo(status, message, body)), stringify) == stringify(body)
  {
  }

  /**
   * The seed does not look at the answer's status: for every structured type, a body with truthy
   * `training_params` seeds an empty editor even under "error".
   */
  lemma ErrorAnswerStillSeeds(modelType: ModelType, message: Option<string>, body: Json, stringify: Json -> string)
    requires modelType != Custom && TruthyOpt(Member(body, "training_params"))
    ensures Seeded("", modelType, Some(TrainingInfo(StatusError, message, body)), stringify)
      == stringify(Member(body, "training_params").value)
  {
  }

  /** The key-change effect: a new key empties the editor and becomes the remembered key. */
  function AfterKeyChange(prevKey: string, key: string, text: string): (r: (string, string))
    ensures r.1 == key
    ensures prevKey != key ==> r.0 == ""
    ensures prevKey == key ==> r.0 == text
  {
    if prevKey != key then ("", key) else (text, prevKey)
  }

  /** A repeated run of the key-change effect, or one where the key resolves to the same string, is a no-op. */
  lemma KeyChangeIsIdempotent(prevKey: string, key: string, text: string)
    ensures var (t, k) := AfterKeyChange(prevKey, key, text);
      AfterKeyChange(k, key, t) == (t, k)
  {
  }

  /**
   * After a switch of selection the editor shows only what belongs to the new selection: the seed
   * for the new identity, or "" when there is none; the old text never survives.
   */
  lemma SwitchThenSeedForgetsOldText(prevKey: string, dataset: string, modelType: ModelType, text: string,
                                     info: Option<TrainingInfo>, stringify: Json -> string)
    requires prevKey != StorageKey(dataset, modelType)
    ensures var (cleared, _) := AfterKeyChange(prevKey, StorageKey(dataset, modelType), text);
      Seeded(cleared, modelType, info, stringify) ==
        (if SeedSource(modelType, info).Some? then stringify(SeedSource(modelType, info).value) else "")
  {
  }

  /** Why a submission was refused before any start request. */
  datatype Refusal =
    | NoDataset      // a non-custom type with no dataset selected
    | NoHfToken      // no Hugging Face token in the admin settings
    | InvalidJson    // the editor text does not parse
    | CommandOfNull  // the text parses to `null`, and reading `custom_command` of it throws

  /** The requests the page issues. */
  datatype Request =
    | StartTraining(modelType: ModelType, datasetName: string, privateMode: bool, userHfToken: Option<string>, trainingParams: Json)
    | StartCustom(customCommand: Json)
    | FetchTrainingInfo(dataset: string, modelType: ModelType)

  /** The outcome of the synchronous part of `handleTrainModel`. */
  datatype Plan = Refused(reason: Refusal) | Send(request: Request)

  /** `trainingParams.custom_command || editableJson`. */
  function CustomCommand(parsed: Json, text: string): (c: Json)
    requires parsed != JNull
    ensures TruthyOpt(Member(parsed, "custom_command")) ==> c == parsed.fields["custom_command"]
    ensures !TruthyOpt(Member(parsed, "custom_command")) ==> c == JStr(text)
  {
    var member := Member(parsed, "custom_command");
    if TruthyOpt(member) then member.value else JStr(text)
  }

  /**
   * The checks of `handleTrainModel` in their order (dataset, token, parse), and the request it
   * builds; `parsed` is what `JSON.parse` made of the editor text.
   */
  function PlanTraining(modelType: ModelType, dataset: string, hfTokenSet: bool, proUser: bool,
                        hfPrivateMode: Option<bool>, text: string, parsed: Option<Json>): (p: Plan)
    ensures p == Refused(NoDataset) <==> modelType != Custom && dataset == ""
    ensures p == Refused(NoHfToken) <==> (modelType == Custom || dataset != "") && !hfTokenSet
    ensures p == Refused(InvalidJson) <==> (modelType == Custom || dataset != "") && hfTokenSet && parsed.None?
    ensures p == Refused(CommandOfNull) <==> hfTokenSet && modelType == Custom && parsed == Some(JNull)
    ensures p.Send? <==>
      (modelType == Custom || dataset != "") && hfTokenSet && parsed.Some? && !(modelType == Custom && parsed.value == JNull)
    ensures p.Send? && modelType != Custom ==>
      p.request == StartTraining(modelType, dataset, proUser && hfPrivateMode == Some(true), None, parsed.value)
    ensures p.Send? && modelType == Custom ==>
      p.request == StartCustom(CustomCommand(parsed.value, text))
  {
    if modelType != Custom && dataset == "" then Refused(NoDataset)
    else if !hfTokenSet then Refused(NoHfToken)
    else if parsed.None? then Refused(InvalidJson)
    else if modelType != Custom then
      Send(StartTraining(modelType, dataset, proUser && hfPrivateMode == Some(true), None, parsed.value))
    else if parsed.value == JNull then Refused(CommandOfNull)
    else Send(StartCustom(CustomCommand(parsed.value, text)))
  }

  /**
   * The Train button's state after the synchronous part: the two early returns leave it alone,
   * the two failures after `loading` return it to idle, and a sent request keeps it loading.
   * A refusal therefore never shows loading unless the button already did.
   */
  function StateAfterPlan(p: Plan, st: TrainingState): (st': TrainingState)
    ensures st' == Loading <==> p.Send? || (st == Loading && p.reason in {NoDataset, NoHfToken})
    ensures p.Refused? ==> st' == st || st' == Idle
    ensures p.Refused? && p.reason in {InvalidJson, CommandOfNull} ==> st' == Idle
  {
    match p
    case Refused(NoDataset) => st
    case Refused(NoHfToken) => st
    case Refused(_) => Idle
    case Send(_) => Loading
  }

  /** What the backend receives: a start of a structured type names a dataset and never carries a token. */
  predicate RequestWellFormed(r: Request) {
    r.StartTraining? ==> r.modelType != Custom && r.datasetName != "" && r.userHfToken.None?
  }

  /** Every request a plan sends is well formed. */
  lemma PlannedRequestsAreWellFormed(modelType: ModelType, dataset: string, hfTokenSet: bool, proUser: bool,
                                     hfPrivateMode: Option<bool>, text: string, parsed: Option<Json>)
    ensures var p := PlanTraining(modelType, dataset, hfTokenSet, proUser, hfPrivateMode, text, parsed);
      p.Send? ==> RequestWellFormed(p.request) && !p.request.FetchTrainingInfo?
  {
  }

  /**
   * The Train button's `disabled` expression: the button is enabled exactly when no start is
   * loading, the selection has a training-info read, and that read is neither loading nor failed.
   */
  function TrainDisabled(modelType: ModelType, dataset: string, st: TrainingState, infoLoading: bool,
                         info: Option<TrainingInfo>): (disabled: bool)
    ensures !disabled <==>
      st != Loading && InfoFetchKey(dataset, modelType).Some? && !infoLoading &&
      (info.None? || info.value.status != StatusError)
  {
    || (modelType != Custom && dataset == "")
    || st == Loading
    || infoLoading
    || (info.Some? && info.value.status == StatusError)
  }

  /**
   * An enabled button implies a training-info read exists for the selection and that the dataset
   * check of the submit handler passes; a loading state always disables the button.
   */
  lemma EnabledButtonPassesDatasetCheck(modelType: ModelType, dataset: string, st: TrainingState, infoLoading: bool,
                                        info: Option<TrainingInfo>, hfTokenSet: bool, proUser: bool,
                                        hfPrivateMode: Option<bool>, text: string, parsed: Option<Json>)
    ensures !TrainDisabled(modelType, dataset, st, infoLoading, info) ==>
      InfoFetchKey(dataset, modelType).Some? &&
      PlanTraining(modelType, dataset, hfTokenSet, proUser, hfPrivateMode, text, parsed) != Refused(NoDataset)
    ensures st == Loading ==> TrainDisabled(modelType, dataset, st, infoLoading, info)
  {
  }

  /** How an awaited start request settles. */
  datatype StartResponse =
    | NoResponse                       // the request helper resolved to a falsy value
    | Responded(message: Option<string>)
    | Threw                            // the request helper threw

  /** The page: the selection, the editor slot, its localStorage entries, the Train button and the requests. */
  class TrainingPage {
    const parse: string -> Option<Json>
    const stringify: Json -> string

    var dataset: string
    var modelType: ModelType
    var editableJson: string
    var prevStorageKey: string
    var cache: map<string, string>
    var trainingState: TrainingState
    var requests: seq<Request>
    var inFlight: seq<ModelType>  // the model type each unsettled start request was made for
    var idleTimers: nat           // armed "back to idle" timers
    var logFile: Option<string>
    var showLogs: bool

    /** A loading button always has a start request outstanding, and every request sent is well formed. */
    ghost predicate Valid()
      reads this
    {
      && (trainingState == Loading ==> |inFlight| > 0)
      && (forall i :: 0 <= i < |requests| ==> RequestWellFormed(requests[i]))
    }

    /** The storage key of the current selection. */
    function Key(): (key: string)
      reads this
    {
      StorageKey(dataset, modelType)
    }

    /** Mounting: the editor slot starts from the localStorage entry of the current key, "" if none. */
    constructor (parse: string -> Option<Json>, stringify: Json -> string,
                 dataset: string, modelType: ModelType, cache: map<string, string>)
      ensures Valid()
      ensures this.parse == parse && this.stringify == stringify
      ensures this.dataset == dataset && this.modelType == modelType && this.cache == cache
      ensures editableJson == (if StorageKey(dataset, modelType) in cache then cache[StorageKey(dataset, modelType)] else "")
      ensures prevStorageKey == StorageKey(dataset, modelType)
      ensures trainingState == Idle && requests == [] && inFlight == [] && idleTimers == 0
      ensures logFile == None && !showLogs
    {
      this.parse := parse;
      this.stringify := stringify;
      this.dataset := dataset;
      this.modelType := modelType;
      this.cache := cache;
      var key := StorageKey(dataset, modelType);
      editableJson := if key in cache then cache[key] else "";
      prevStorageKey := key;
      trainingState := Idle;
      requests, inFlight, idleTimers := [], [], 0;
      logFile, showLogs := None, false;
    }

    method SelectDataset(d: string)
      requires Valid()
      modifies this`dataset
      ensures Valid()
      ensures dataset == d
    {
      dataset := d;
    }

    method SelectModelType(m: ModelType)
      requires Valid()
      modifies this`modelType
      ensures Valid()
      ensures modelType == m
    {
      modelType := m;
    }

    /** The editor's `onChange`. */
    method EditorChanged(text: string)
      requires Valid()
      modifies this`editableJson
      ensures Valid()
      ensures editableJson == text
    {
      editableJson := text;
    }

    /** The effect that empties the editor when the storage key changes. */
    method KeyChangeEffect()
      requires Valid()
      modifies this`editableJson, this`prevStorageKey
      ensures Valid()
      ensures (editableJson, prevStorageKey) == AfterKeyChange(old(prevStorageKey), Key(), old(editableJson))
    {
      var key := StorageKey(dataset, modelType);
      if prevStorageKey != key {
        editableJson := "";
        prevStorageKey := key;
      }
    }

    /** The effect that seeds an empty editor from the training info delivered for the selection. */
    method SeedEffect(info: Option<TrainingInfo>)
      requires Valid()
      modifies this`editableJson
      ensures Valid()
      ensures editableJson == Seeded(old(editableJson), modelType, info, stringify)
    {
      var body := if info.Some? then info.value.trainingBody else JNull;
      if modelType != Custom && info.Some? && TruthyOpt(Member(body, "training_params")) && editableJson == "" {
        editableJson := stringify(Member(body, "training_params").value);
      } else if modelType == Custom && info.Some? && TruthyOpt(Member(body, "custom_command")) && editableJson == "" {
        editableJson := stringify(body);
      }
    }

    /** The localStorage write-back of the editor slot under the current key. */
    method Persist()
      requires Valid()
      modifies this`cache
      ensures Valid()
      ensures cache == old(cache)[Key() := editableJson]
    {
      cache := cache[Key() := editableJson];
    }

    /** The reset button: drop the entry, empty the editor, and re-read the training info. */
    method Reset()
      requires Valid()
      modifies this`cache, this`editableJson, this`requests
      ensures Valid()
      ensures cache == old(cache) - {Key()} && Key() !in cache
      ensures editableJson == ""
      ensures InfoFetchKey(dataset, modelType).Some? ==> requests == old(requests) + [FetchTrainingInfo(dataset, modelType)]
      ensures InfoFetchKey(dataset, modelType).None? ==> requests == old(requests)
    {
      cache := cache - {Key()};
      editableJson := "";
      // `mutate` re-reads only a key some hook is subscribed to; a null key has no subscriber
      if InfoFetchKey(dataset, modelType).Some? {
        requests := requests + [FetchTrainingInfo(dataset, modelType)];
      }
    }

    /** `handleTrainModel` up to its awaited start request. */
    method HandleTrainModel(hfTokenSet: bool, proUser: bool, hfPrivateMode: Option<bool>) returns (plan: Plan)
      requires Valid()
      modifies this`trainingState, this`requests, this`inFlight
      ensures Valid()
      ensures plan == PlanTraining(modelType, dataset, hfTokenSet, proUser, hfPrivateMode, editableJson, parse(editableJson))
      ensures trainingState == StateAfterPlan(plan, old(trainingState))
      ensures requests == old(requests) + (if plan.Send? then [plan.request] else [])
      ensures inFlight == old(inFlight) + (if plan.Send? then [modelType] else [])
    {
      if modelType != Custom && dataset == "" {
        return Refused(NoDataset);
      }
      if !hfTokenSet {
        return Refused(NoHfToken);
      }
      trainingState := Loading;
      var parsed := parse(editableJson);
      if parsed.None? {
        trainingState := Idle;
        return Refused(InvalidJson);
      }
      var request;
      if modelType != Custom {
        request := StartTraining(modelType, dataset, proUser && hfPrivateMode == Some(true), None, parsed.value);
      } else if parsed.value == JNull {
        // the caught TypeError
        trainingState := Idle;
        return Refused(CommandOfNull);
      } else {
        request := StartCustom(CustomCommand(parsed.value, editableJson));
      }
      requests := requests + [request];
      inFlight := inFlight + [modelType];
      plan := Send(request);
    }

    /** The continuation of `handleTrainModel` for its `i`-th outstanding start request. */
    method StartResponseArrives(i: nat, response: StartResponse)
      requires Valid() && i < |inFlight|
      modifies this`trainingState, this`inFlight, this`idleTimers, this`logFile, this`showLogs
      ensures Valid()
      ensures inFlight == old(inFlight[..i] + inFlight[i + 1..])
      ensures !response.Responded? ==>
        trainingState == Idle && idleTimers == old(idleTimers) && logFile == old(logFile) && showLogs == old(showLogs)
      ensures response.Responded? ==> trainingState == Success && idleTimers == old(idleTimers) + 1
      ensures response.Responded? && old(inFlight[i]) == Custom && response.message.Some? && response.message.value != "" ==>
        logFile == response.message && showLogs
      ensures !(response.Responded? && old(inFlight[i]) == Custom && response.message.Some? && response.message.value != "") ==>
        logFile == old(logFile) && showLogs == old(showLogs)
    {
      var madeFor := inFlight[i];
      inFlight := inFlight[..i] + inFlight[i + 1..];
      match response
      case NoResponse =>
        trainingState := Idle;
      case Threw =>
        trainingState := Idle;
      case Responded(message) =>
        if madeFor == Custom && message.Some? && message.value != "" {
          logFile := message;
          showLogs := true;
        }
        trainingState := Success;
        idleTimers := idleTimers + 1;
    }

    /** A "back to idle" timer armed by a success fires. */
    method IdleTimerFires()
      requires Valid() && idleTimers > 0
      modifies this`trainingState, this`idleTimers
      ensures Valid()
      ensures trainingState == Idle && idleTimers == old(idleTimers) - 1
    {
      trainingState := Idle;
      idleTimers := idleTimers - 1;
    }
  }

  /**
   * Mounting with a non-empty cached text and then receiving the training info: the key-change
   * effect does nothing on mount, and the cached text wins over the fetched parameters.
   */
  method MountThenSeed(parse: string -> Option<Json>, stringify: Json -> string, dataset: string,
                       modelType: ModelType, cache: map<string, string>, info: Option<TrainingInfo>)
      returns (text: string)
    requires StorageKey(dataset, modelType) in cache && cache[StorageKey(dataset, modelType)] != ""
    ensures text == cache[StorageKey(dataset, modelType)]
  {
    var page := new TrainingPage(parse, stringify, dataset, modelType, cache);
    page.KeyChangeEffect();
    page.SeedEffect(info);
    text := page.editableJson;
  }

  /**
   * The seed effect runs again on every change of the editor text: a user who deletes all the text
   * gets the fetched parameters back at once, whatever they had typed.
   */
  method ClearedEditorIsReseeded(parse: string -> Option<Json>, stringify: Json -> string, dataset: string,
                                 modelType: ModelType, cache: map<string, string>, info: Option<TrainingInfo>,
                                 typed: string)
      returns (text: string)
    requires SeedSource(modelType, info).Some?
    ensures text == stringify(SeedSource(modelType, info).value)
  {
    var page := new TrainingPage(parse, stringify, dataset, modelType, cache);
    page.KeyChangeEffect();
    page.SeedEffect(info);
    page.EditorChanged(typed);
    page.SeedEffect(info);
    page.EditorChanged("");
    page.SeedEffect(info);
    text := page.editableJson;
  }
}
