/**
 * How loadGraph reads its string-to-string configuration map: which scheduler
 * takes the graph (tag, stream, bypass or the default one), whether a bypass
 * graph is bound to one device, its runtime priority, and whether the call only
 * updates the priority of a graph loaded before.
 */
module GraphConfig {
  import opened Wrappers

  type Config = map<string, string>

  const SUBCLASS: string := "SUBCLASS"
  const GRAPH_TAG: string := "GRAPH_TAG"
  const STREAM_ID: string := "STREAM_ID"
  const DEVICE_TAG: string := "DEVICE_TAG"
  const BIND_DEVICE: string := "BIND_DEVICE"
  const RUNTIME_PRIORITY: string := "RUNTIME_PRIORITY"
  const UPDATE_RUNTIME_PRIORITY: string := "UPDATE_RUNTIME_PRIORITY"

  /** The keys loadGraph reads; any other key is ignored. */
  predicate IsConfigKey(k: string) {
    k == SUBCLASS || k == GRAPH_TAG || k == STREAM_ID || k == DEVICE_TAG
    || k == BIND_DEVICE || k == RUNTIME_PRIORITY || k == UPDATE_RUNTIME_PRIORITY
  }

  /** The range of a C `int`, which SUBCLASS and RUNTIME_PRIORITY hold. */
  const INT_MIN: int := -0x8000_0000
  const INT_MAX: int := 0x7FFF_FFFF

  predicate IsDigit(ch: char) { '0' <= ch <= '9' }

  predicate IsDigits(s: string) {
    |s| > 0 && forall i :: 0 <= i < |s| ==> IsDigit(s[i])
  }

  /** The value of a string of decimal digits, most significant first. */
  function DigitsValue(s: string): nat
    requires forall i :: 0 <= i < |s| ==> IsDigit(s[i])
  {
    if |s| == 0 then 0
    else
      assert IsDigit(s[|s| - 1]);
      DigitsValue(s[..|s| - 1]) * 10 + (s[|s| - 1] as int - '0' as int)
  }

  /** A decimal integer with an optional leading minus sign that fits a C `int`. */
  function ParseInt(s: string): (r: Option<int>)
    ensures r.Some? ==> INT_MIN <= r.value <= INT_MAX
    ensures r.Some? ==> IsDigits(s) || (|s| > 1 && s[0] == '-' && IsDigits(s[1..]))
  {
    var v: Option<int> :=
      if IsDigits(s) then Some(DigitsValue(s))
      else if |s| > 1 && s[0] == '-' && IsDigits(s[1..]) then Some(0 - (DigitsValue(s[1..]) as int))
      else None;
    if v.Some? && INT_MIN <= v.value <= INT_MAX then v else None
  }

  /** The decimal digits of a natural number, without leading zeros. */
  function NatToString(n: nat): string
  {
    if n < 10 then [(('0' as int) + n) as char]
    else NatToString(n / 10) + [(('0' as int) + n % 10) as char]
  }

  function IntToString(i: int): string
  {
    if i < 0 then "-" + NatToString(-i) else NatToString(i)
  }

  lemma {:induction false} NatToStringDigits(n: nat)
    ensures IsDigits(NatToString(n))
    ensures DigitsValue(NatToString(n)) == n
  {
    if n >= 10 {
      NatToStringDigits(n / 10);
      var s := NatToString(n);
      assert s[..|s| - 1] == NatToString(n / 10);
    }
  }

  /** Every C `int` written in decimal reads back as itself. */
  lemma ParseIntOfIntToString(i: int)
    requires INT_MIN <= i <= INT_MAX
    ensures ParseInt(IntToString(i)) == Some(i)
  {
    if i < 0 {
      NatToStringDigits(-i);
      var s := IntToString(i);
      assert s[1..] == NatToString(-i);
    } else {
      NatToStringDigits(i);
    }
  }

  /** A boolean option: "True"/"Yes" or "False"/"No"; anything else is invalid. */
  function ParseBool(s: string): (r: Option<bool>)
    ensures r == Some(true) <==> s == "True" || s == "Yes"
    ensures r == Some(false) <==> s == "False" || s == "No"
  {
    if s == "True" || s == "Yes" then Some(true)
    else if s == "False" || s == "No" then Some(false)
    else None
  }

  /** A tag option: absent and empty both mean "not set". */
  function Tag(c: Config, k: string): (r: Option<string>)
    ensures r.Some? <==> k in c && c[k] != ""
    ensures r.Some? ==> r.value == c[k]
  {
    if k in c && c[k] != "" then Some(c[k]) else None
  }

  /** A boolean option that defaults to False. */
  function Flag(c: Config, k: string): Option<bool>
  {
    if k in c then ParseBool(c[k]) else Some(false)
  }

  /** An integer option that defaults to 0. */
  function IntOption(c: Config, k: string): Option<int>
  {
    if k in c then ParseInt(c[k]) else Some(0)
  }

  datatype Binding =
    | Bound                     // BIND_DEVICE true: one device with the tag
    | Shared(priority: int)     // BIND_DEVICE false: every unbound device with the same graph

  datatype Scheduler =
    | DefaultScheduler
    | TagScheduler(graphTag: string)
    | StreamScheduler(streamId: string)
    | BypassScheduler(deviceTag: string, binding: Binding)

  datatype Request =
    | Load(scheduler: Scheduler, subclass: int)
    | UpdatePriority(deviceTag: string, priority: int)

  datatype ConfigError =
    | BadSubclass
    | ConflictingSchedulers
    | BadBindDevice
    | BadUpdateFlag
    | BadRuntimePriority
    | MissingRuntimePriority
    | UpdateOnBoundDevice

  /** How many of the three scheduler tags are set. */
  function TagsSet(c: Config): nat
  {
    (if Tag(c, GRAPH_TAG).Some? then 1 else 0)
    + (if Tag(c, STREAM_ID).Some? then 1 else 0)
    + (if Tag(c, DEVICE_TAG).Some? then 1 else 0)
  }

  /** The bypass-only options, read once DEVICE_TAG is set. */
  function BypassRequest(c: Config, deviceTag: string, subclass: int): Result<Request, ConfigError>
  {
    var bind := Flag(c, BIND_DEVICE);
    var update := Flag(c, UPDATE_RUNTIME_PRIORITY);
    if bind.None? then Failure(BadBindDevice)
    else if update.None? then Failure(BadUpdateFlag)
    else if bind.value then
      if update.value then Failure(UpdateOnBoundDevice)
      else Success(Load(BypassScheduler(deviceTag, Bound), subclass))
    else if update.value && RUNTIME_PRIORITY !in c then Failure(MissingRuntimePriority)
    else
      var priority := IntOption(c, RUNTIME_PRIORITY);
      if priority.None? then Failure(BadRuntimePriority)
      else if update.value then Success(UpdatePriority(deviceTag, priority.value))
      else Success(Load(BypassScheduler(deviceTag, Shared(priority.value)), subclass))
  }

  /** The request a configuration map makes of loadGraph, or why it is malformed. */
  function Interpret(c: Config): (r: Result<Request, ConfigError>)
    ensures r.Success? ==> IntOption(c, SUBCLASS).Some? && TagsSet(c) <= 1
    ensures r.Success? && r.value.Load? ==> r.value.subclass == IntOption(c, SUBCLASS).value
  {
    var subclass := IntOption(c, SUBCLASS);
    if subclass.None? then Failure(BadSubclass)
    else if TagsSet(c) > 1 then Failure(ConflictingSchedulers)
    else if Tag(c, GRAPH_TAG).Some? then Success(Load(TagScheduler(c[GRAPH_TAG]), subclass.value))
    else if Tag(c, STREAM_ID).Some? then Success(Load(StreamScheduler(c[STREAM_ID]), subclass.value))
    else if Tag(c, DEVICE_TAG).Some? then BypassRequest(c, c[DEVICE_TAG], subclass.value)
    else Success(Load(DefaultScheduler, subclass.value))
  }

  /** An empty map loads on the default scheduler with firmware subclass 0. */
  lemma EmptyConfigDefaults()
    ensures Interpret(map[]) == Success(Load(DefaultScheduler, 0))
  {
  }

  /** A DEVICE_TAG alone selects the bypass scheduler, unbound, at priority 0. */
  lemma DeviceTagAloneDefaults(tag: string)
    requires tag != ""
    ensures Interpret(map[DEVICE_TAG := tag]) == Success(Load(BypassScheduler(tag, Shared(0)), 0))
  {
    var c := map[DEVICE_TAG := tag];
    assert GRAPH_TAG !in c && STREAM_ID !in c && SUBCLASS !in c;
    assert BIND_DEVICE !in c && UPDATE_RUNTIME_PRIORITY !in c && RUNTIME_PRIORITY !in c;
  }

  /** Setting a scheduler tag to the empty string is the same as leaving it out. */
  lemma EmptyTagIsUnset(c: Config, k: string)
    requires k == GRAPH_TAG || k == STREAM_ID || k == DEVICE_TAG
    ensures Interpret(c[k := ""]) == Interpret(c - {k})
  {
    var c1, c2 := c[k := ""], c - {k};
    forall k' | k' != k
      ensures Tag(c1, k') == Tag(c2, k') && Flag(c1, k') == Flag(c2, k') && IntOption(c1, k') == IntOption(c2, k')
      ensures (k' in c1) == (k' in c2)
    {
    }
    assert Tag(c1, k) == Tag(c2, k);
    assert Tag(c1, GRAPH_TAG) == Tag(c2, GRAPH_TAG);
    assert Tag(c1, STREAM_ID) == Tag(c2, STREAM_ID);
    assert Tag(c1, DEVICE_TAG) == Tag(c2, DEVICE_TAG);
    assert IntOption(c1, SUBCLASS) == IntOption(c2, SUBCLASS);
    assert Flag(c1, BIND_DEVICE) == Flag(c2, BIND_DEVICE);
    assert Flag(c1, UPDATE_RUNTIME_PRIORITY) == Flag(c2, UPDATE_RUNTIME_PRIORITY);
    assert IntOption(c1, RUNTIME_PRIORITY) == IntOption(c2, RUNTIME_PRIORITY);
    assert (RUNTIME_PRIORITY in c1) == (RUNTIME_PRIORITY in c2);
  }

  /** Keys loadGraph does not know are ignored. */
  lemma UnknownKeysIgnored(c: Config, k: string, v: string)
    requires !IsConfigKey(k)
    ensures Interpret(c[k := v]) == Interpret(c)
  {
    var c1 := c[k := v];
    assert Tag(c1, GRAPH_TAG) == Tag(c, GRAPH_TAG);
    assert Tag(c1, STREAM_ID) == Tag(c, STREAM_ID);
    assert Tag(c1, DEVICE_TAG) == Tag(c, DEVICE_TAG);
    assert IntOption(c1, SUBCLASS) == IntOption(c, SUBCLASS);
    assert Flag(c1, BIND_DEVICE) == Flag(c, BIND_DEVICE);
    assert Flag(c1, UPDATE_RUNTIME_PRIORITY) == Flag(c, UPDATE_RUNTIME_PRIORITY);
    assert IntOption(c1, RUNTIME_PRIORITY) == IntOption(c, RUNTIME_PRIORITY);
    assert (RUNTIME_PRIORITY in c1) == (RUNTIME_PRIORITY in c);
  }

  /** Each non-empty tag selects its own scheduler; with none set the default scheduler takes the graph. */
  lemma SchedulerFollowsTag(c: Config)
    requires Interpret(c).Success? && Interpret(c).value.Load?
    ensures Interpret(c).value.scheduler.TagScheduler? <==> Tag(c, GRAPH_TAG).Some?
    ensures Interpret(c).value.scheduler.StreamScheduler? <==> Tag(c, STREAM_ID).Some?
    ensures Interpret(c).value.scheduler.BypassScheduler? <==> Tag(c, DEVICE_TAG).Some?
    ensures Interpret(c).value.scheduler.DefaultScheduler? <==> TagsSet(c) == 0
    ensures Interpret(c).value.scheduler.TagScheduler? ==> Interpret(c).value.scheduler.graphTag == c[GRAPH_TAG]
    ensures Interpret(c).value.scheduler.StreamScheduler? ==> Interpret(c).value.scheduler.streamId == c[STREAM_ID]
    ensures Interpret(c).value.scheduler.BypassScheduler? ==> Interpret(c).value.scheduler.deviceTag == c[DEVICE_TAG]
  {
  }

  /** A bypass load is bound exactly when BIND_DEVICE says True or Yes. */
  lemma BindingFollowsBindDevice(c: Config)
    requires Interpret(c).Success? && Interpret(c).value.Load? && Interpret(c).value.scheduler.BypassScheduler?
    ensures Interpret(c).value.scheduler.binding.Bound? <==> Flag(c, BIND_DEVICE) == Some(true)
    ensures Interpret(c).value.scheduler.binding.Shared? ==>
      Interpret(c).value.scheduler.binding.priority == IntOption(c, RUNTIME_PRIORITY).value
  {
  }

  /** Without DEVICE_TAG the bypass-only options have no effect, whatever their value. */
  lemma BypassOptionsNeedDeviceTag(c: Config, k: string, v: string)
    requires Tag(c, DEVICE_TAG).None?
    requires k == BIND_DEVICE || k == RUNTIME_PRIORITY || k == UPDATE_RUNTIME_PRIORITY
    ensures Interpret(c[k := v]) == Interpret(c)
  {
    var c1 := c[k := v];
    assert Tag(c1, GRAPH_TAG) == Tag(c, GRAPH_TAG);
    assert Tag(c1, STREAM_ID) == Tag(c, STREAM_ID);
    assert Tag(c1, DEVICE_TAG) == Tag(c, DEVICE_TAG);
    assert IntOption(c1, SUBCLASS) == IntOption(c, SUBCLASS);
  }

  /** On a bound load RUNTIME_PRIORITY is not read. */
  lemma PriorityIgnoredWhenBound(c: Config, v: string)
    requires Tag(c, DEVICE_TAG).Some?
    requires Flag(c, BIND_DEVICE) == Some(true)
    ensures Interpret(c[RUNTIME_PRIORITY := v]) == Interpret(c)
  {
    var c1 := c[RUNTIME_PRIORITY := v];
    assert Tag(c1, GRAPH_TAG) == Tag(c, GRAPH_TAG);
    assert Tag(c1, STREAM_ID) == Tag(c, STREAM_ID);
    assert Tag(c1, DEVICE_TAG) == Tag(c, DEVICE_TAG);
    assert IntOption(c1, SUBCLASS) == IntOption(c, SUBCLASS);
    assert Flag(c1, BIND_DEVICE) == Flag(c, BIND_DEVICE);
    assert Flag(c1, UPDATE_RUNTIME_PRIORITY) == Flag(c, UPDATE_RUNTIME_PRIORITY);
  }

  /**
   * A priority update comes only from DEVICE_TAG with UPDATE_RUNTIME_PRIORITY
   * true, BIND_DEVICE false and an explicit integer RUNTIME_PRIORITY.
   */
  lemma UpdateNeedsExplicitPriority(c: Config)
    requires Interpret(c).Success? && Interpret(c).value.UpdatePriority?
    ensures Tag(c, DEVICE_TAG).Some? && Interpret(c).value.deviceTag == c[DEVICE_TAG]
    ensures Flag(c, UPDATE_RUNTIME_PRIORITY) == Some(true)
    ensures Flag(c, BIND_DEVICE) == Some(false)
    ensures RUNTIME_PRIORITY in c && ParseInt(c[RUNTIME_PRIORITY]) == Some(Interpret(c).value.priority)
  {
  }

  /** Asking to update the priority without giving one is an error, not an update to 0. */
  lemma UpdateWithoutPriorityFails(c: Config)
    requires TagsSet(c) == 1 && Tag(c, DEVICE_TAG).Some? && IntOption(c, SUBCLASS).Some?
    requires Flag(c, BIND_DEVICE) == Some(false) && Flag(c, UPDATE_RUNTIME_PRIORITY) == Some(true)
    requires RUNTIME_PRIORITY !in c
    ensures Interpret(c) == Failure(MissingRuntimePriority)
  {
  }

  /** DEVICE_TAG with a written-out RUNTIME_PRIORITY is an unbound bypass load at that priority. */
  lemma UnboundLoadConfig(tag: string, p: int)
    requires tag != "" && INT_MIN <= p <= INT_MAX
    ensures Interpret(map[DEVICE_TAG := tag, RUNTIME_PRIORITY := IntToString(p)])
            == Success(Load(BypassScheduler(tag, Shared(p)), 0))
  {
    var c := map[DEVICE_TAG := tag, RUNTIME_PRIORITY := IntToString(p)];
    assert GRAPH_TAG !in c && STREAM_ID !in c && SUBCLASS !in c;
    assert BIND_DEVICE !in c && UPDATE_RUNTIME_PRIORITY !in c;
    ParseIntOfIntToString(p);
  }

  /** Adding UPDATE_RUNTIME_PRIORITY "True" turns that load into an update to the same priority. */
  lemma UpdateConfig(tag: string, p: int)
    requires tag != "" && INT_MIN <= p <= INT_MAX
    ensures Interpret(map[DEVICE_TAG := tag, RUNTIME_PRIORITY := IntToString(p), UPDATE_RUNTIME_PRIORITY := "True"])
            == Success(UpdatePriority(tag, p))
  {
    var c := map[DEVICE_TAG := tag, RUNTIME_PRIORITY := IntToString(p), UPDATE_RUNTIME_PRIORITY := "True"];
    assert GRAPH_TAG !in c && STREAM_ID !in c && SUBCLASS !in c;
    assert BIND_DEVICE !in c && c[UPDATE_RUNTIME_PRIORITY] == "True";
    ParseIntOfIntToString(p);
  }
}
