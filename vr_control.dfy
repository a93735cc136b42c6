/**
 * The VR teleoperation settings card: an optimistic, debounced write-back of the teleop settings.
 * An update replaces the cached settings at once and re-arms a single timer slot; when the timer
 * fires, only the key and value of the latest update are posted, and the cache is then revalidated.
 */
module VRControl {
  import opened Wrappers

  /** The teleop settings object, as a record of numeric fields. */
  type Settings = map<string, real>

  const ScalingKey := "vr_scaling"
  const FallbackScaling: real := 1.0

  /** The data the settings cache shows before the first read completes. */
  const Fallback: Settings := map[ScalingKey := FallbackScaling]

  /** What the card asks of the backend, in order. */
  datatype Effect =
    | PostSettings(payload: Settings)  // POST /teleop/settings with a partial settings object
    | Revalidate                       // re-read /teleop/settings/read into the cache

  /**
   * The card's synchronisation state: the cached settings (`None` stands for the falsy `settings`
   * the guard of `updateTeleopSetting` tests for; the card starts from the fallback data, and no
   * transition here empties it), the key and value the armed timer will post, the payloads of
   * the posts still awaited, and the requests sent so far.
   */
  datatype SyncState = SyncState(settings: Option<Settings>, pending: Option<(string, real)>,
                                 posting: seq<Settings>, outbox: seq<Effect>)

  const Initial := SyncState(Some(Fallback), None, [], [])

  /**
   * `updateTeleopSetting(key, value)`: the optimistic replacement and the re-armed timer. An update
   * sends nothing, settles nothing, and never loads or drops the cached settings.
   */
  function AfterUpdate(st: SyncState, key: string, value: real): (st': SyncState)
    ensures st'.posting == st.posting && st'.outbox == st.outbox
    ensures st'.settings.Some? <==> st.settings.Some?
  {
    match st.settings
    case None => st
    case Some(s) => st.(settings := Some(s[key := value]), pending := Some((key, value)))
  }

  /**
   * The timer callback up to its `await`: post `{key: value}` of the update that armed it. The
   * post stays outstanding until it settles; the slot is free for the next update meanwhile. The
   * cache is not touched, and the one request sent is the armed key alone.
   */
  function AfterFire(st: SyncState): (st': SyncState)
    requires st.pending.Some?
    ensures st'.settings == st.settings && st'.pending.None?
    ensures |st'.outbox| == |st.outbox| + 1 && st'.outbox[..|st.outbox|] == st.outbox
    ensures var p := st'.outbox[|st.outbox|];
      p.PostSettings? && p.payload.Keys == {st.pending.value.0} && p.payload[st.pending.value.0] == st.pending.value.1
    ensures st'.posting == st.posting + [st'.outbox[|st.outbox|].payload]
  {
    var (key, value) := st.pending.value;
    var payload := map[key := value];
    st.(pending := None, posting := st.posting + [payload], outbox := st.outbox + [PostSettings(payload)])
  }

  /**
   * The rest of the callback, once outstanding post `i` settles: revalidate, unless the awaited
   * post rejected and the callback stopped there.
   */
  function AfterPostSettles(st: SyncState, i: nat, writeRejected: bool): (st': SyncState)
    requires i < |st.posting|
    ensures st'.settings == st.settings && st'.pending == st.pending
    ensures |st'.posting| == |st.posting| - 1
    ensures forall j :: 0 <= j < i ==> st'.posting[j] == st.posting[j]
    ensures forall j :: i < j < |st.posting| ==> st'.posting[j - 1] == st.posting[j]
    ensures writeRejected ==> st'.outbox == st.outbox
    ensures !writeRejected ==>
      && |st'.outbox| == |st.outbox| + 1
      && st'.outbox[..|st.outbox|] == st.outbox
      && st'.outbox[|st.outbox|] == Revalidate
  {
    st.(posting := st.posting[..i] + st.posting[i + 1..],
        outbox := st.outbox + if writeRejected then [] else [Revalidate])
  }

  /**
   * A revalidation's answer replaces the cached settings: the slider then follows the server's
   * `vr_scaling`, and the timer slot, the awaited posts and the requests are left alone.
   */
  function AfterRevalidation(st: SyncState, server: Settings): (st': SyncState)
    ensures DisplayedScaling(st'.settings) == if ScalingKey in server then server[ScalingKey] else FallbackScaling
    ensures st'.pending == st.pending && st'.posting == st.posting && st'.outbox == st.outbox
  {
    st.(settings := Some(server))
  }

  /** Several updates in a row, with no timer firing in between. */
  function Burst(st: SyncState, updates: seq<(string, real)>): (st': SyncState)
    decreases |updates|
  {
    if |updates| == 0 then st
    else
      var last := updates[|updates| - 1];
      AfterUpdate(Burst(st, updates[..|updates| - 1]), last.0, last.1)
  }

  /** The settings after applying `updates` in order. */
  function ApplyAll(s: Settings, updates: seq<(string, real)>): (s': Settings)
    decreases |updates|
  {
    if |updates| == 0 then s
    else
      var last := updates[|updates| - 1];
      ApplyAll(s, updates[..|updates| - 1])[last.0 := last.1]
  }

  /** `settings?.vr_scaling ?? 1.0`: the value the slider's expression gives. */
  function DisplayedScaling(settings: Option<Settings>): (v: real)
    ensures settings.Some? && ScalingKey in settings.value ==> v == settings.value[ScalingKey]
    ensures settings.Some? && ScalingKey !in settings.value ==> v == FallbackScaling
    ensures settings.None? ==> v == FallbackScaling
  {
    if settings.Some? && ScalingKey in settings.value then settings.value[ScalingKey] else FallbackScaling
  }

  /** Before the first read the slider sits at 1.0; after a scaling update it shows the new value at once. */
  lemma ScalingShownAtOnce(st: SyncState, value: real)
    requires st.settings.Some?
    ensures DisplayedScaling(Initial.settings) == FallbackScaling
    ensures DisplayedScaling(AfterUpdate(st, ScalingKey, value).settings) == value
  {
  }

  /** Without settings an update changes nothing and arms no timer. */
  lemma UpdateWithoutSettingsIsNoOp(st: SyncState, key: string, value: real)
    requires st.settings.None?
    ensures AfterUpdate(st, key, value) == st
  {
  }

  /**
   * An update is applied to the cache before any write: only `key` changes, the timer slot holds
   * exactly this update, and nothing is sent.
   */
  lemma UpdateIsOptimistic(st: SyncState, key: string, value: real)
    requires st.settings.Some?
    ensures var st' := AfterUpdate(st, key, value);
      && st'.settings.Some? && st'.settings.value[key] == value
      && (forall k :: k != key ==> (k in st'.settings.value <==> k in st.settings.value))
      && (forall k :: k != key && k in st.settings.value ==> st'.settings.value[k] == st.settings.value[k])
      && st'.pending == Some((key, value))
      && st'.posting == st.posting && st'.outbox == st.outbox
  {
  }

  /**
   * Any burst of updates leaves a single armed timer that carries the last update, sends
   * nothing, and shows every update in the cache.
   */
  lemma {:induction false} BurstLeavesOnePendingWrite(st: SyncState, updates: seq<(string, real)>)
    requires st.settings.Some? && |updates| > 0
    ensures Burst(st, updates).settings == Some(ApplyAll(st.settings.value, updates))
    ensures Burst(st, updates).pending == Some(updates[|updates| - 1])
    ensures Burst(st, updates).posting == st.posting && Burst(st, updates).outbox == st.outbox
  {
    if |updates| > 1 {
      BurstLeavesOnePendingWrite(st, updates[..|updates| - 1]);
    }
  }

  /**
   * When the timer of a burst fires, exactly one post goes out, carrying only the burst's last
   * key and value; once that post settles, one revalidation follows unless it was rejected.
   */
  lemma {:induction false} BurstPostsOnce(st: SyncState, updates: seq<(string, real)>, writeRejected: bool)
    requires st.settings.Some? && |updates| > 0
    ensures Burst(st, updates).pending.Some?
    ensures var last := updates[|updates| - 1];
      var fired := AfterFire(Burst(st, updates));
      && fired.outbox == st.outbox + [PostSettings(map[last.0 := last.1])]
      && fired.posting == st.posting + [map[last.0 := last.1]]
      && AfterPostSettles(fired, |st.posting|, writeRejected).posting == st.posting
      && AfterPostSettles(fired, |st.posting|, writeRejected).outbox ==
           st.outbox + [PostSettings(map[last.0 := last.1])] + (if writeRejected then [] else [Revalidate])
  {
    BurstLeavesOnePendingWrite(st, updates);
    var fired := AfterFire(Burst(st, updates));
    assert fired.posting[..|st.posting|] == st.posting;
  }

  /** Two different keys updated within one window: both reach the cache, only the second is posted. */
  lemma TwoKeysPostOnlyTheLast(st: SyncState, k1: string, v1: real, k2: string, v2: real)
    requires st.settings.Some? && k1 != k2
    ensures var st' := AfterFire(AfterUpdate(AfterUpdate(st, k1, v1), k2, v2));
      && st'.settings.Some? && st'.settings.value[k1] == v1 && st'.settings.value[k2] == v2
      && st'.outbox == st.outbox + [PostSettings(map[k2 := v2])]
      && k1 !in st'.outbox[|st.outbox|].payload
  {
  }

  /** The write never restores the value the update replaced, whether it succeeds or is rejected. */
  lemma NoRollback(st: SyncState, key: string, value: real, writeRejected: bool)
    requires st.settings.Some?
    ensures AfterFire(AfterUpdate(st, key, value)).settings == Some(st.settings.value[key := value])
    ensures var fired := AfterFire(AfterUpdate(st, key, value));
      AfterPostSettles(fired, |fired.posting| - 1, writeRejected).settings == Some(st.settings.value[key := value])
  {
  }

  /**
   * Two windows in a row on one key overlap on the network: while the second post is still
   * awaited, the first post settles and its revalidation can bring back the first value, replacing
   * the newer value the cache already showed.
   */
  lemma StaleRevalidationCanHideNewerValue(st: SyncState, key: string, v1: real, v2: real, server: Settings)
    requires st.settings.Some? && key in server && server[key] == v1
    ensures var second := AfterFire(AfterUpdate(AfterFire(AfterUpdate(st, key, v1)), key, v2));
      && second.settings.value[key] == v2
      && second.posting == st.posting + [map[key := v1], map[key := v2]]
      && var settled := AfterPostSettles(second, |st.posting|, false);
      && settled.posting == st.posting + [map[key := v2]]
      && settled.outbox == st.outbox + [PostSettings(map[key := v1]), PostSettings(map[key := v2]), Revalidate]
      && AfterRevalidation(settled, server).settings.value[key] == v1
  {
    var second := AfterFire(AfterUpdate(AfterFire(AfterUpdate(st, key, v1)), key, v2));
    assert second.posting[..|st.posting|] == st.posting;
    assert second.posting[|st.posting| + 1..] == [map[key := v2]];
  }

  /** The card's live state: the cached settings, the debounce timer slot, the awaited posts and the request log. */
  class TeleopSettingsSync {
    var settings: Option<Settings>
    var pending: Option<(string, real)>
    var posting: seq<Settings>
    var outbox: seq<Effect>

    function State(): (st: SyncState)
      reads this
    {
      SyncState(settings, pending, posting, outbox)
    }

    constructor ()
      ensures State() == Initial
    {
      settings, pending, posting, outbox := Some(Fallback), None, [], [];
    }

    /** `updateTeleopSetting`: optimistic cache update, then cancel and re-arm the timer. */
    method UpdateTeleopSetting(key: string, value: real)
      modifies this
      ensures State() == AfterUpdate(old(State()), key, value)
    {
      if settings.None? {
        return;
      }
      settings := Some(settings.value[key := value]);
      // clearTimeout on the previous timer and setTimeout for this update share the single slot
      pending := Some((key, value));
    }

    /** The timer callback, run when the debounce delay elapses, up to the awaited post. */
    method TimerFires()
      requires pending.Some?
      modifies this
      ensures State() == AfterFire(old(State()))
    {
      var (key, value) := pending.value;
      pending := None;
      posting := posting + [map[key := value]];
      outbox := outbox + [PostSettings(map[key := value])];
    }

    /** Outstanding post `i` settles; the callback then revalidates unless the post rejected. */
    method PostSettles(i: nat, writeRejected: bool)
      requires i < |posting|
      modifies this
      ensures State() == AfterPostSettles(old(State()), i, writeRejected)
    {
      posting := posting[..i] + posting[i + 1..];
      if !writeRejected {
        outbox := outbox + [Revalidate];
      }
    }

    /** A revalidation completes with the server's settings. */
    method RevalidationArrives(server: Settings)
      modifies this
      ensures State() == AfterRevalidation(old(State()), server)
    {
      settings := Some(server);
    }

    /**
     * `handleScalingChange`: the slider reports one value per thumb; only the first is mapped
     * through `sliderToScaling` and stored as `vr_scaling`.
     */
    method HandleScalingChange(sliderValues: seq<real>, sliderToScaling: real -> real)
      requires |sliderValues| > 0
      modifies this
      ensures State() == AfterUpdate(old(State()), ScalingKey, sliderToScaling(sliderValues[0]))
      ensures old(settings).Some? ==> DisplayedScaling(settings) == sliderToScaling(sliderValues[0])
    {
      UpdateTeleopSetting(ScalingKey, sliderToScaling(sliderValues[0]));
    }
  }

  /**
   * Two updates of different keys within one debounce window, then the timer and the post's
   * settling: the backend receives a single post carrying only the second key, then one re-read.
   */
  method TwoUpdatesOneWindow(k1: string, v1: real, k2: string, v2: real) returns (sent: seq<Effect>, shown: Settings)
    requires k1 != k2
    ensures sent == [PostSettings(map[k2 := v2]), Revalidate]
    ensures shown == Fallback[k1 := v1][k2 := v2]
  {
    var sync := new TeleopSettingsSync();
    sync.UpdateTeleopSetting(k1, v1);
    sync.UpdateTeleopSetting(k2, v2);
    sync.TimerFires();
    sync.PostSettles(0, false);
    sent := sync.outbox;
    shown := sync.settings.value;
  }
}
