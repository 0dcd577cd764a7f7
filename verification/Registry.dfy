/** The plugin registry of internal/plugins/registry.go: a table of plugin objects, each with
    its own circuit breaker, tenant overrides, and guarded execution. */
module Registry {
  import opened Text
  import opened Wrappers
  import B = Breaker

  /** The configuration of a plugin that its behaviour depends on. */
  datatype Config = Config(
    name: string,
    enabled: bool,
    isSystem: bool,
    endpointPrefix: string,
    failureThreshold: int,
    timeoutSeconds: int,
    cooldownSeconds: int,
    fallbackMode: string,
    payload: string)

  const GRACEFUL := "graceful_fallback"

  function Normalize(c: Config): Config {
    c.(name := Trim(c.name),
       endpointPrefix := Trim(c.endpointPrefix),
       failureThreshold := if c.failureThreshold <= 0 then 3 else c.failureThreshold,
       timeoutSeconds := if c.timeoutSeconds <= 0 then 20 else c.timeoutSeconds,
       cooldownSeconds := if c.cooldownSeconds <= 0 then 30 else c.cooldownSeconds,
       fallbackMode := if Lower(Trim(c.fallbackMode)) == "" then GRACEFUL else Lower(Trim(c.fallbackMode)))
  }

  function Key(id: string): string { Lower(Trim(id)) }

  // ---- the registry as a value ----

  datatype Entry = Entry(config: Config, breaker: B.Snapshot)

  datatype Reg = Reg(plugins: map<string, Entry>, overrides: map<string, map<string, bool>>)

  /** The breaker trips and recovers by the configured numbers. */
  predicate Synced(e: Entry) {
    && e.config.failureThreshold > 0 && e.config.cooldownSeconds > 0 && e.config.timeoutSeconds > 0
    && e.breaker.threshold == e.config.failureThreshold
    && e.breaker.cooldown == e.config.cooldownSeconds * B.SECOND
  }

  function Fresh(c: Config, now: int): Entry {
    Entry(c, B.New(c.failureThreshold, c.cooldownSeconds, now))
  }

  /** Operations, with the clock readings they make. */
  datatype Op =
    | Load(id: string, row: Config, now: int)
    | Toggle(id: string, enabled: bool)
    | Configure(id: string, threshold: int, timeout: int, cooldown: int, mode: string)
    | Edit(id: string, change: Config)
    | Create(id: string, config: Config, now: int)
    | Delete(id: string)
    | Override(institution: string, id: string, enabled: bool)
    | ResetCircuit(id: string, now: int)
    | Execute(id: string, institution: string, call: B.Call)

  function Positive(x: int, otherwise: int): int { if x > 0 then x else otherwise }

  function Tuned(e: Entry, c: Config): Entry {
    Entry(c, B.Apply(e.breaker, B.Update(c.failureThreshold, c.cooldownSeconds)))
  }

  function Configured(c: Config, threshold: int, timeout: int, cooldown: int, mode: string): Config {
    c.(failureThreshold := Positive(threshold, c.failureThreshold),
       timeoutSeconds := Positive(timeout, c.timeoutSeconds),
       cooldownSeconds := Positive(cooldown, c.cooldownSeconds),
       fallbackMode := if mode != "" then Lower(Trim(mode)) else c.fallbackMode)
  }

  function Edited(c: Config, d: Config): Config {
    Configured(c, d.failureThreshold, d.timeoutSeconds, d.cooldownSeconds, d.fallbackMode)
      .(name := if d.name != "" then Trim(d.name) else c.name,
        enabled := d.enabled,
        endpointPrefix := if d.endpointPrefix != "" then Trim(d.endpointPrefix) else c.endpointPrefix,
        payload := Trim(d.payload))
  }

  function Enabled(r: Reg, id: string, institution: string): bool {
    EnabledAt(r, Key(id), Trim(institution))
  }

  predicate EnabledAt(r: Reg, k: string, inst: string) {
    && k in r.plugins
    && r.plugins[k].config.enabled
    && (inst != "" && inst in r.overrides && k in r.overrides[inst] ==> r.overrides[inst][k])
  }

  function SlugChar(c: char): char { if c == ' ' then '_' else c }

  function Underscored(s: string): (r: string)
    ensures |r| == |s| && forall i :: 0 <= i < |s| ==> r[i] == SlugChar(s[i])
  {
    seq(|s|, i requires 0 <= i < |s| => SlugChar(s[i]))
  }

  function Slug(name: string): string {
    Lower(Underscored(Trim(name)))
  }

  function NewKey(id: string, name: string): string {
    if Key(id) == "" then Key(Slug(name)) else Key(Key(id))
  }

  predicate Complete(id: string, c: Config) {
    (Key(id) != "" || Slug(c.name) != "") && Trim(c.name) != "" && Trim(c.endpointPrefix) != ""
  }

  predicate Creatable(r: Reg, id: string, c: Config) {
    Complete(id, c) && NewKey(id, c.name) !in r.plugins
  }

  /** The key an operation addresses. */
  function Target(op: Op): string {
    if op.Create? then NewKey(op.id, op.config.name) else Key(op.id)
  }

  /** Effect of an operation on the entry it addresses. */
  function EntryAfter(e: Entry, k: string, op: Op): Entry {
    match op
    case Load(_, row, _) => Tuned(e, Normalize(row))
    case Toggle(_, on) => e.(config := e.config.(enabled := on))
    case Configure(_, t, s, c, m) => Tuned(e, Configured(e.config, t, s, c, m))
    case Edit(_, d) => if k == "" then e else Tuned(e, Edited(e.config, d))
    case ResetCircuit(_, now) => e.(breaker := B.Apply(e.breaker, B.Reset(now)))
    case Execute(_, _, call) => e.(breaker := B.CallStep(e.breaker, call))
    case _ => e
  }

  function ApplyOverride(o: map<string, map<string, bool>>, inst: string, k: string, on: bool): map<string, map<string, bool>> {
    if inst == "" || k == "" then o
    else o[inst := (if inst in o then o[inst] else map[])[k := on]]
  }

  function Apply(r: Reg, op: Op): Reg {
    ApplyAt(r, Target(op), op)
  }

  function ApplyAt(r: Reg, k: string, op: Op): Reg {
    if op.Override? then r.(overrides := ApplyOverride(r.overrides, Trim(op.institution), k, op.enabled))
    else if k !in r.plugins then
      match op
      case Load(_, row, now) => r.(plugins := r.plugins[k := Fresh(Normalize(row), now)])
      case Create(id, c, now) =>
        if Complete(id, c) then r.(plugins := r.plugins[k := Fresh(Normalize(c.(isSystem := false)), now)]) else r
      case _ => r
    else if op.Create? then r
    else if op.Delete? then
      if k == "" || r.plugins[k].config.isSystem then r else r.(plugins := r.plugins - {k})
    else if op.Execute? && !EnabledAt(r, k, Trim(op.institution)) then r
    else r.(plugins := r.plugins[k := EntryAfter(r.plugins[k], k, op)])
  }

  /** What the caller of a guarded execution gets. */
  datatype Outcome =
    | Value(value: string)        // the action's own result
    | ActionError                 // the action's own error
    | CustomFallback(payload: string)
    | GeneratedFallback(id: string)
    | Disabled
    | CircuitIsOpen

  function Degraded(c: Config, id: string, otherwise: Outcome): Outcome {
    if c.fallbackMode == GRACEFUL then
      if c.payload != "" then CustomFallback(c.payload) else GeneratedFallback(id)
    else otherwise
  }

  function OutcomeOf(r: Reg, id: string, inst: string, call: B.Call, value: string): Outcome {
    if Key(id) !in r.plugins then (if call.ok then Value(value) else ActionError)
    else if !Enabled(r, id, inst) then Disabled
    else Guarded(r.plugins[Key(id)], Key(id), call, value)
  }

  function Guarded(e: Entry, k: string, call: B.Call, value: string): Outcome {
    if !B.Permits(e.breaker, call.start) then Degraded(e.config, k, CircuitIsOpen)
    else if call.ok then Value(value)
    else Degraded(e.config, k, ActionError)
  }

  /** On a known plugin these operations change its entry and nothing else. */
  lemma EntryApplies(r: Reg, k: string, op: Op)
    requires k in r.plugins && Key(op.id) == k && (op.Toggle? || op.Configure? || op.ResetCircuit?)
    ensures Apply(r, op) == r.(plugins := r.plugins[k := EntryAfter(r.plugins[k], k, op)])
  {
  }

  /** What a guarded call of a plugin, on or off for the caller, leaves and answers. */
  function Called(r: Reg, k: string, on: bool, call: B.Call): Reg {
    if k !in r.plugins || !on then r
    else r.(plugins := r.plugins[k := r.plugins[k].(breaker := B.CallStep(r.plugins[k].breaker, call))])
  }

  function Answered(r: Reg, k: string, on: bool, call: B.Call, value: string): Outcome {
    if k !in r.plugins then (if call.ok then Value(value) else ActionError)
    else if !on then Disabled
    else Guarded(r.plugins[k], k, call, value)
  }

  /** In a run of operations an execution is such a call. */
  lemma ExecuteApplies(r: Reg, id: string, inst: string, call: B.Call, value: string)
    ensures Apply(r, Execute(id, inst, call)) == Called(r, Key(id), Enabled(r, id, inst), call)
    ensures OutcomeOf(r, id, inst, call, value) == Answered(r, Key(id), Enabled(r, id, inst), call, value)
  {
  }

  lemma CreateApplies(r: Reg, id: string, c: Config, now: int, k: string)
    requires k == NewKey(id, c.name) && Creatable(r, id, c)
    ensures Apply(r, Create(id, c, now))
            == r.(plugins := r.plugins[k := Fresh(Normalize(c.(isSystem := false)), now)])
  {
  }

  // ---- the objects ----

  /** Asks the breaker, and if it permits, runs the action and records its result. */
  method Guard(breaker: B.CircuitBreaker, call: B.Call) returns (allowed: bool)
    modifies breaker
    ensures allowed == B.Permits(old(breaker.Model()), call.start)
    ensures breaker.Model() == B.CallStep(old(breaker.Model()), call)
  {
    var reported;
    allowed, reported := breaker.AllowRequest(call.start);
    if allowed {
      if call.ok {
        breaker.RecordSuccess(call.end);
      } else {
        breaker.RecordFailure(call.end);
      }
    }
  }

  class Plugin {
    const id: string
    var config: Config
    const breaker: B.CircuitBreaker

    constructor (id: string, config: Config, breaker: B.CircuitBreaker)
      ensures this.id == id && this.config == config && this.breaker == breaker
    {
      this.id := id;
      this.config := config;
      this.breaker := breaker;
    }

    ghost function View(): Entry reads this, breaker {
      Entry(config, breaker.Model())
    }
  }

  class PluginRegistry {
    var plugins: map<string, Plugin>
    var tenantOverrides: map<string, map<string, bool>>

    ghost function Objects(): set<object> reads this {
      {this} + (set k | k in plugins :: plugins[k] as object) + (set k | k in plugins :: plugins[k].breaker as object)
    }

    /** Plugins and breakers are never shared between entries. */
    ghost predicate Valid() reads Objects() {
      forall i, j :: i in plugins && j in plugins && i != j ==>
        plugins[i] != plugins[j] && plugins[i].breaker != plugins[j].breaker
    }

    ghost function Model(): Reg reads Objects() {
      Reg(map k | k in plugins :: plugins[k].View(), tenantOverrides)
    }

    twostate lemma OnlyEntryChanged(k: string)
      requires old(Valid()) && k in plugins
      requires plugins == old(plugins) && tenantOverrides == old(tenantOverrides)
      requires forall j <- plugins :: j != k ==> plugins[j].View() == old(plugins[j].View())
      ensures Model() == old(Model()).(plugins := old(Model()).plugins[k := plugins[k].View()])
    {
    }

    twostate lemma OnlyEntryAdded(k: string)
      requires old(Valid()) && k in plugins && k !in old(plugins)
      requires plugins == old(plugins)[k := plugins[k]] && tenantOverrides == old(tenantOverrides)
      requires fresh(plugins[k]) && fresh(plugins[k].breaker)
      requires forall j <- old(plugins) :: plugins[j].View() == old(plugins[j].View())
      ensures Valid() && fresh(Objects() - old(Objects()))
      ensures Model() == old(Model()).(plugins := old(Model()).plugins[k := plugins[k].View()])
    {
      assert Model().plugins == old(Model()).plugins[k := plugins[k].View()];
    }

    twostate lemma OnlyEntryRemoved(k: string)
      requires old(Valid()) && plugins == old(plugins) - {k} && tenantOverrides == old(tenantOverrides)
      requires forall j <- plugins :: plugins[j].View() == old(plugins[j].View())
      ensures Valid() && Objects() <= old(Objects())
      ensures Model() == old(Model()).(plugins := old(Model()).plugins - {k})
    {
      assert Model().plugins == old(Model()).plugins - {k};
    }

    constructor ()
      ensures Valid() && Model() == Reg(map[], map[]) && fresh(Objects())
    {
      plugins := map[];
      tenantOverrides := map[];
    }

    /** Puts a new plugin object with its own breaker under an unused key. */
    method Insert(k: string, c: Config, now: int)
      requires Valid() && k !in plugins
      modifies this`plugins
      ensures Valid() && fresh(Objects() - old(Objects()))
      ensures Model() == old(Model()).(plugins := old(Model()).plugins[k := Fresh(c, now)])
    {
      var breaker := new B.CircuitBreaker(c.failureThreshold, c.cooldownSeconds, now);
      var p := new Plugin(k, c, breaker);
      plugins := plugins[k := p];
      OnlyEntryAdded(k);
    }

    /** Sets the configuration and passes the two breaker parameters on. */
    method Tune(k: string, c: Config)
      requires Valid() && k in plugins
      modifies plugins[k], plugins[k].breaker
      ensures Valid() && plugins == old(plugins)
      ensures Model() == old(Model()).(plugins := old(Model()).plugins[k := Tuned(old(Model()).plugins[k], c)])
    {
      plugins[k].config := c;
      plugins[k].breaker.UpdateParams(c.failureThreshold, c.cooldownSeconds);
      OnlyEntryChanged(k);
    }

    /** One row read from the plugin table. */
    method LoadRow(id: string, row: Config, now: int)
      requires Valid()
      modifies Objects()
      ensures Valid() && fresh(Objects() - old(Objects()))
      ensures Model() == Apply(old(Model()), Load(id, row, now))
    {
      var c := Normalize(row);
      Put(Key(id), c, now);
    }

    method Put(k: string, c: Config, now: int)
      requires Valid()
      modifies Objects()
      ensures Valid() && fresh(Objects() - old(Objects()))
      ensures Model() == old(Model()).(plugins := old(Model()).plugins[k :=
                if k in old(plugins) then Tuned(old(Model()).plugins[k], c) else Fresh(c, now)])
    {
      if k in plugins {
        Tune(k, c);
      } else {
        Insert(k, c, now);
      }
    }

    method TogglePlugin(id: string, enabled: bool) returns (ok: bool)
      requires Valid()
      modifies Objects()
      ensures Valid() && Objects() == old(Objects())
      ensures ok == (Key(id) in plugins)
      ensures Model() == Apply(old(Model()), Toggle(id, enabled))
    {
      var k := Key(id);
      if k !in plugins { return false; }
      EntryApplies(Model(), k, Toggle(id, enabled));
      plugins[k].config := plugins[k].config.(enabled := enabled);
      OnlyEntryChanged(k);
      return true;
    }

    method UpdatePluginConfig(id: string, threshold: int, timeout: int, cooldown: int, mode: string) returns (ok: bool)
      requires Valid()
      modifies Objects()
      ensures Valid() && Objects() == old(Objects())
      ensures ok == (Key(id) in plugins)
      ensures Model() == Apply(old(Model()), Configure(id, threshold, timeout, cooldown, mode))
    {
      var k := Key(id);
      if k !in plugins { return false; }
      EntryApplies(Model(), k, Configure(id, threshold, timeout, cooldown, mode));
      Tune(k, Configured(plugins[k].config, threshold, timeout, cooldown, mode));
      return true;
    }

    method UpdatePlugin(id: string, change: Config) returns (ok: bool)
      requires Valid()
      modifies Objects()
      ensures Valid() && Objects() == old(Objects())
      ensures ok == (Key(id) != "" && Key(id) in plugins)
      ensures Model() == Apply(old(Model()), Edit(id, change))
    {
      var k := Key(id);
      if k == "" || k !in plugins { return false; }
      Tune(k, Edited(plugins[k].config, change));
      return true;
    }

    method CreatePlugin(id: string, c: Config, now: int) returns (ok: bool)
      requires Valid()
      modifies this`plugins
      ensures Valid() && fresh(Objects() - old(Objects()))
      ensures ok == Creatable(old(Model()), id, c)
      ensures Model() == Apply(old(Model()), Create(id, c, now))
    {
      var k := Key(id);
      if k == "" { k := Slug(c.name); }
      if k == "" || Trim(c.name) == "" || Trim(c.endpointPrefix) == "" { return false; }
      k := Key(k);
      if k in plugins { return false; }
      assert k == NewKey(id, c.name);
      CreateApplies(Model(), id, c, now, k);
      Insert(k, Normalize(c.(isSystem := false)), now);
      return true;
    }

    method DeletePlugin(id: string) returns (ok: bool)
      requires Valid()
      modifies this`plugins
      ensures Valid() && Objects() <= old(Objects())
      ensures Model() == Apply(old(Model()), Delete(id))
      ensures ok <==> Key(id) in old(plugins) && Key(id) !in plugins
    {
      var k := Key(id);
      if k == "" || k !in plugins { return false; }
      if plugins[k].config.isSystem { return false; }
      plugins := plugins - {k};
      OnlyEntryRemoved(k);
      return true;
    }

    method SetTenantOverride(institution: string, id: string, enabled: bool) returns (ok: bool)
      requires Valid()
      modifies this`tenantOverrides
      ensures Valid() && Objects() == old(Objects())
      ensures Model() == Apply(old(Model()), Override(institution, id, enabled))
      ensures ok == (Trim(institution) != "" && Key(id) != "")
    {
      var inst, k := Trim(institution), Key(id);
      if inst == "" || k == "" { return false; }
      var tenant := map[];
      if inst in tenantOverrides {
        tenant := tenantOverrides[inst];
      }
      tenantOverrides := tenantOverrides[inst := tenant[k := enabled]];
      assert Model().plugins == old(Model()).plugins;
      return true;
    }

    method ResetCircuitOf(id: string, now: int) returns (ok: bool)
      requires Valid()
      modifies Objects()
      ensures Valid() && Objects() == old(Objects())
      ensures ok == (Key(id) in plugins)
      ensures Model() == Apply(old(Model()), ResetCircuit(id, now))
    {
      var k := Key(id);
      if k !in plugins { return false; }
      EntryApplies(Model(), k, ResetCircuit(id, now));
      plugins[k].breaker.ResetState(now);
      OnlyEntryChanged(k);
      return true;
    }

    predicate SwitchedOn(k: string, inst: string)
      reads Objects()
      requires Valid()
      ensures SwitchedOn(k, inst) == EnabledAt(Model(), k, inst)
    {
      && k in plugins && plugins[k].config.enabled
      && !(inst != "" && inst in tenantOverrides && k in tenantOverrides[inst] && !tenantOverrides[inst][k])
    }

    method IsPluginEnabled(id: string, institution: string) returns (on: bool)
      requires Valid()
      ensures on == Enabled(Model(), id, institution)
    {
      return SwitchedOn(Key(id), Trim(institution));
    }

    method RunGuarded(k: string, on: bool, call: B.Call, value: string) returns (o: Outcome)
      requires Valid()
      modifies Objects()
      ensures Valid() && Objects() == old(Objects())
      ensures Model() == Called(old(Model()), k, on, call)
      ensures o == Answered(old(Model()), k, on, call, value)
    {
      if k !in plugins {
        return if call.ok then Value(value) else ActionError;
      }
      if !on { return Disabled; }
      var c := plugins[k].config;
      var allowed := Guard(plugins[k].breaker, call);
      OnlyEntryChanged(k);
      if !allowed { return Degraded(c, k, CircuitIsOpen); }
      if !call.ok { return Degraded(c, k, ActionError); }
      return Value(value);
    }

    /** `call.ok` and `value` are what the action yields if it runs. */
    method ExecuteWithResilience(id: string, institution: string, call: B.Call, value: string) returns (o: Outcome)
      requires Valid()
      modifies Objects()
      ensures Valid() && Objects() == old(Objects())
      ensures Model() == Apply(old(Model()), Execute(id, institution, call))
      ensures o == OutcomeOf(old(Model()), id, institution, call, value)
    {
      ExecuteApplies(Model(), id, institution, call, value);
      o := RunGuarded(Key(id), SwitchedOn(Key(id), Trim(institution)), call, value);
    }

    /** The table is walked in no particular order. */
    method MatchPluginEndpoint(path: string) returns (found: bool, best: string)
      requires Valid()
      ensures found <==> exists k :: k in plugins && Matches(Model(), k, path)
      ensures found ==> best in plugins && Matches(Model(), best, path)
                        && plugins[best].config.endpointPrefix != "" && plugins[best].config.endpointPrefix <= path
      ensures !found ==> forall k <- plugins :: plugins[k].config.endpointPrefix == "" || !(plugins[k].config.endpointPrefix <= path)
      ensures found ==> forall k :: k in plugins && Matches(Model(), k, path) ==>
                |plugins[k].config.endpointPrefix| <= |plugins[best].config.endpointPrefix|
    {
      var longest := 0;
      var left := plugins.Keys;
      found, best := false, "";
      while left != {}
        invariant left <= plugins.Keys
        invariant found ==> best in plugins && Matches(Model(), best, path)
                            && longest == |plugins[best].config.endpointPrefix|
        invariant !found ==> longest == 0
        invariant forall k :: k in plugins && k !in left && Matches(Model(), k, path) ==>
                    found && |plugins[k].config.endpointPrefix| <= longest
        decreases left
      {
        var k :| k in left;
        var prefix := plugins[k].config.endpointPrefix;
        if prefix != "" && prefix <= path && |prefix| > longest {
          longest := |prefix|;
          found, best := true, k;
        }
        left := left - {k};
      }
    }
  }

  predicate Matches(r: Reg, k: string, path: string)
    requires k in r.plugins
  {
    r.plugins[k].config.endpointPrefix != "" && r.plugins[k].config.endpointPrefix <= path
  }

  // ---- what a caller gets ----

  /** Every outcome and when it comes.  An unknown plugin's action runs unguarded; a known one's
      only if it is on and its breaker permits; and the graceful mode turns every refusal and
      every failure into a fallback, the plugin's own if it has one. */
  lemma OutcomeIff(r: Reg, id: string, inst: string, call: B.Call, value: string)
    ensures var o, k := OutcomeOf(r, id, inst, call, value), Key(id);
            if k !in r.plugins then o == if call.ok then Value(value) else ActionError
            else
              var e := r.plugins[k];
              var runs := B.Permits(e.breaker, call.start);
              && (o == Disabled <==> !Enabled(r, id, inst))
              && (Enabled(r, id, inst) ==>
                    && (o.Value? <==> runs && call.ok) && (o.Value? ==> o.value == value)
                    && (o == CircuitIsOpen <==> !runs && e.config.fallbackMode != "graceful_fallback")
                    && (o == ActionError <==> runs && !call.ok && e.config.fallbackMode != "graceful_fallback")
                    && (o.CustomFallback? ==> o.payload == e.config.payload != "")
                    && (o.GeneratedFallback? ==> o.id == k && e.config.payload == ""))
  {
  }

  // ---- what each operation sets ----

  /** A plugin's own row says all; an update changes what it names and leaves the rest: numbers
      only if positive, texts only if given, the switch and the fallback text always. */
  lemma ConfigurationAfter(r: Reg, k: string, op: Op)
    requires k in r.plugins && Key(op.id) == k != ""
    ensures var c := r.plugins[k].config;
            match op
            case Toggle(_, on) => k in Apply(r, op).plugins && Apply(r, op).plugins[k].config == c.(enabled := on)
            case Configure(_, t, s, cool, mode) =>
              k in Apply(r, op).plugins && var d := Apply(r, op).plugins[k].config;
                && d.failureThreshold == (if t > 0 then t else c.failureThreshold)
                && d.timeoutSeconds == (if s > 0 then s else c.timeoutSeconds)
                && d.cooldownSeconds == (if cool > 0 then cool else c.cooldownSeconds)
                && d.fallbackMode == (if mode == "" then c.fallbackMode else Lower(Trim(mode)))
                && d == c.(failureThreshold := d.failureThreshold, timeoutSeconds := d.timeoutSeconds,
                           cooldownSeconds := d.cooldownSeconds, fallbackMode := d.fallbackMode)
            case Edit(_, x) =>
              k in Apply(r, op).plugins && var d := Apply(r, op).plugins[k].config;
                && d.enabled == x.enabled && d.isSystem == c.isSystem && d.payload == Trim(x.payload)
                && d.name == (if x.name == "" then c.name else Trim(x.name))
                && d.endpointPrefix == (if x.endpointPrefix == "" then c.endpointPrefix else Trim(x.endpointPrefix))
                && d.failureThreshold == (if x.failureThreshold > 0 then x.failureThreshold else c.failureThreshold)
                && d.timeoutSeconds == (if x.timeoutSeconds > 0 then x.timeoutSeconds else c.timeoutSeconds)
                && d.cooldownSeconds == (if x.cooldownSeconds > 0 then x.cooldownSeconds else c.cooldownSeconds)
                && d.fallbackMode == (if x.fallbackMode == "" then c.fallbackMode else Lower(Trim(x.fallbackMode)))
            case Load(_, row, _) => k in Apply(r, op).plugins && IsNormal(Apply(r, op).plugins[k].config, row)
            case ResetCircuit(_, now) =>
              && k in Apply(r, op).plugins && Apply(r, op).plugins[k].config == c
              && Apply(r, op).plugins[k].breaker.state == B.Closed && Apply(r, op).plugins[k].breaker.fails == 0
            case _ => true
  {
  }

  /** A row as it is kept: trimmed, with three failures, twenty and thirty seconds and the
      graceful mode where it says nothing. */
  predicate IsNormal(d: Config, row: Config) {
    && d.name == Trim(row.name) && d.endpointPrefix == Trim(row.endpointPrefix)
    && d.enabled == row.enabled && d.isSystem == row.isSystem && d.payload == row.payload
    && d.failureThreshold == (if row.failureThreshold > 0 then row.failureThreshold else 3)
    && d.timeoutSeconds == (if row.timeoutSeconds > 0 then row.timeoutSeconds else 20)
    && d.cooldownSeconds == (if row.cooldownSeconds > 0 then row.cooldownSeconds else 30)
    && d.fallbackMode == (if Trim(row.fallbackMode) == "" then "graceful_fallback" else Lower(Trim(row.fallbackMode)))
  }

  /** A created plugin is found under its identifier, or under its name in lower case with
      underscores for spaces; it is never a system plugin, and its breaker is closed and as it
      was configured. */
  lemma CreatedAs(r: Reg, id: string, c: Config, now: int)
    requires Creatable(r, id, c)
    ensures var k, u := NewKey(id, c.name), Apply(r, Create(id, c, now));
            && k in u.plugins && IsNormal(u.plugins[k].config, c.(isSystem := false))
            && u.plugins[k].breaker == B.New(u.plugins[k].config.failureThreshold, u.plugins[k].config.cooldownSeconds, now)
            && (Key(id) != "" ==> k == Key(id))
            && (Key(id) == "" ==> |k| == |Trim(c.name)| && forall i :: 0 <= i < |k| ==>
                  k[i] == if Trim(c.name)[i] == ' ' then '_' else LowerChar(Trim(c.name)[i]))
  {
    KeyTwice(id);
    SlugIsKey(c.name);
  }

  lemma LowerKeepsSpaces(t: string)
    requires t != [] ==> !IsSpace(t[0]) && !IsSpace(t[|t| - 1])
    ensures Trim(Lower(t)) == Lower(t) && Lower(Lower(t)) == Lower(t)
  {
    if t != [] { assert !IsSpace(LowerChar(t[0])) && !IsSpace(LowerChar(t[|t| - 1])); }
    TrimmedStays(Lower(t));
  }

  lemma KeysAreFolded(id: string)
    ensures Key(Upper(id)) == Key(id) && Key(Trim(id)) == Key(id)
  {
    CaseFolds(id);
    TrimIdempotent(id);
  }

  lemma KeyTwice(id: string)
    ensures Key(Key(id)) == Key(id)
  {
    TrimHolds(id);
    LowerKeepsSpaces(Trim(id));
  }

  lemma SlugIsKey(name: string)
    ensures Key(Slug(name)) == Slug(name) && |Slug(name)| == |Trim(name)|
    ensures forall i :: 0 <= i < |Slug(name)| ==>
              Slug(name)[i] == if Trim(name)[i] == ' ' then '_' else LowerChar(Trim(name)[i])
  {
    TrimHolds(name);
    var t := Underscored(Trim(name));
    if t != [] { assert !IsSpace(t[0]) && !IsSpace(t[|t| - 1]); }
    LowerKeepsSpaces(t);
  }

  // ---- every run of operations ----

  function Run(r: Reg, ops: seq<Op>): Reg {
    if ops == [] then r else Apply(Run(r, ops[..|ops| - 1]), ops[|ops| - 1])
  }

  predicate AllSynced(r: Reg) {
    forall k <- r.plugins :: Synced(r.plugins[k])
  }

  lemma CallKeepsParameters(b: B.Snapshot, call: B.Call)
    ensures B.CallStep(b, call).threshold == b.threshold && B.CallStep(b, call).cooldown == b.cooldown
  {
  }

  lemma EntryStaysSynced(e: Entry, k: string, op: Op)
    requires Synced(e)
    ensures Synced(EntryAfter(e, k, op))
  {
    if op.Execute? {
      CallKeepsParameters(e.breaker, op.call);
    }
  }

  lemma FreshIsSynced(c: Config, now: int)
    ensures Synced(Fresh(Normalize(c), now))
  {
  }

  lemma StepKeepsSynced(r: Reg, op: Op)
    requires AllSynced(r)
    ensures AllSynced(Apply(r, op))
  {
    if op.Create? { FreshIsSynced(op.config.(isSystem := false), op.now); }
    if op.Load? { FreshIsSynced(op.row, op.now); }
    if Target(op) in r.plugins {
      EntryStaysSynced(r.plugins[Target(op)], Target(op), op);
    }
  }

  /** Configuration and breaker never drift apart, whatever sequence of loads, edits, resets
      and executions happens. */
  lemma {:induction false} RunKeepsSynced(r: Reg, ops: seq<Op>)
    requires AllSynced(r)
    ensures AllSynced(Run(r, ops))
  {
    if ops != [] {
      RunKeepsSynced(r, ops[..|ops| - 1]);
      StepKeepsSynced(Run(r, ops[..|ops| - 1]), ops[|ops| - 1]);
    }
  }

  predicate IsSystemPlugin(r: Reg, k: string) {
    k in r.plugins && r.plugins[k].config.isSystem
  }

  /** A database row that takes the flag away. */
  predicate Clears(op: Op, k: string) {
    op.Load? && Key(op.id) == k && !op.row.isSystem
  }

  lemma EntryKeepsSystem(e: Entry, k: string, op: Op)
    requires e.config.isSystem
    ensures EntryAfter(e, k, op).config.isSystem <==> !(op.Load? && !op.row.isSystem)
  {
  }

  lemma StepKeepsSystem(r: Reg, k: string, op: Op)
    requires IsSystemPlugin(r, k)
    ensures IsSystemPlugin(Apply(r, op), k) <==> !Clears(op, k)
  {
    StepAtKeepsSystem(r, k, Target(op), op);
  }

  lemma StepAtKeepsSystem(r: Reg, k: string, target: string, op: Op)
    requires IsSystemPlugin(r, k)
    ensures IsSystemPlugin(ApplyAt(r, target, op), k) <==> !(target == k && op.Load? && !op.row.isSystem)
  {
    EntryKeepsSystem(r.plugins[k], k, op);
  }

  predicate SystemAllAlong(r: Reg, k: string, ops: seq<Op>) {
    IsSystemPlugin(Run(r, ops), k) && (ops == [] || SystemAllAlong(r, k, ops[..|ops| - 1]))
  }

  /** A system plugin stays registered, as one, all along a run exactly if no database row of
      the run clears its flag. */
  lemma {:induction false} SystemPluginsSurviveIff(r: Reg, k: string, ops: seq<Op>)
    requires IsSystemPlugin(r, k)
    ensures SystemAllAlong(r, k, ops) <==> forall op <- ops :: !Clears(op, k)
    decreases |ops|
  {
    if ops != [] {
      var before, last := ops[..|ops| - 1], ops[|ops| - 1];
      assert ops == before + [last];
      SystemPluginsSurviveIff(r, k, before);
      if SystemAllAlong(r, k, before) {
        assert IsSystemPlugin(Run(r, before), k);
        StepKeepsSystem(Run(r, before), k, last);
      }
    }
  }

  /** After one such row the plugin can be deleted. */
  lemma ClearedFlagAllowsDeletion(r: Reg, k: string, row: Config, now: int)
    requires IsSystemPlugin(r, k) && Key(k) == k && k != "" && !row.isSystem
    ensures k !in Run(r, [Load(k, row, now), Delete(k)]).plugins
  {
    var ops := [Load(k, row, now), Delete(k)];
    assert ops[..1] == [Load(k, row, now)];
    assert ops[..1][..0] == [];
    assert Run(r, ops[..1]) == Apply(Run(r, ops[..1][..0]), Load(k, row, now));
  }

  predicate Names(op: Op, k: string) {
    !op.Override? && Target(op) == k
  }

  lemma StepFrame(r: Reg, k: string, op: Op)
    requires !Names(op, k)
    ensures k in Apply(r, op).plugins <==> k in r.plugins
    ensures k in r.plugins ==> Apply(r, op).plugins[k] == r.plugins[k]
  {
    StepAtFrame(r, k, Target(op), op);
  }

  lemma StepAtFrame(r: Reg, k: string, target: string, op: Op)
    requires op.Override? || target != k
    ensures k in ApplyAt(r, target, op).plugins <==> k in r.plugins
    ensures k in r.plugins ==> ApplyAt(r, target, op).plugins[k] == r.plugins[k]
  {
  }

  /** Feature isolation: a plugin's configuration and breaker are untouched by any run of
      operations on other plugins, tripping breakers included. */
  lemma {:induction false} OthersAreIsolated(r: Reg, k: string, ops: seq<Op>)
    requires forall op <- ops :: !Names(op, k)
    ensures k in Run(r, ops).plugins <==> k in r.plugins
    ensures k in r.plugins ==> Run(r, ops).plugins[k] == r.plugins[k]
    decreases |ops|
  {
    if ops != [] {
      var before := ops[..|ops| - 1];
      assert forall op <- before :: op in ops;
      assert !Names(ops[|ops| - 1], k);
      OthersAreIsolated(r, k, before);
      StepFrame(Run(r, before), k, ops[|ops| - 1]);
    }
  }

  /** Operations that leave plugin `k` registered and its breaker to executions alone. */
  predicate Calm(op: Op, k: string) {
    match op
    case Execute(_, _, _) => true
    case Toggle(_, _) => true
    case Override(_, _, _) => true
    case Create(_, _, _) => true
    case _ => Target(op) != k
  }

  /** The guarded calls of a run that reach the breaker of plugin `k`. */
  function CallsOf(r: Reg, ops: seq<Op>, k: string): seq<B.Call> {
    if ops == [] then []
    else
      var before, op := ops[..|ops| - 1], ops[|ops| - 1];
      CallsOf(r, before, k) +
      (if op.Execute? && Key(op.id) == k && Enabled(Run(r, before), op.id, op.institution) then [op.call] else [])
  }

  lemma CalmStep(r: Reg, k: string, op: Op)
    requires k in r.plugins && Calm(op, k)
    ensures k in Apply(r, op).plugins
    ensures Apply(r, op).plugins[k].breaker
            == if op.Execute? && Key(op.id) == k && Enabled(r, op.id, op.institution)
               then B.CallStep(r.plugins[k].breaker, op.call)
               else r.plugins[k].breaker
  {
    if Names(op, k) { CalmStepAt(r, k, op); } else { StepFrame(r, k, op); }
  }

  lemma CalmStepAt(r: Reg, k: string, op: Op)
    requires k in r.plugins && (op.Execute? || op.Toggle? || op.Create?)
    ensures k in ApplyAt(r, k, op).plugins
    ensures ApplyAt(r, k, op).plugins[k].breaker
            == if op.Execute? && EnabledAt(r, k, Trim(op.institution)) then B.CallStep(r.plugins[k].breaker, op.call)
               else r.plugins[k].breaker
  {
  }

  lemma {:induction false} BreakerSeesItsCalls(r: Reg, ops: seq<Op>, k: string)
    requires k in r.plugins && forall op <- ops :: Calm(op, k)
    ensures k in Run(r, ops).plugins
    ensures Run(r, ops).plugins[k].breaker == B.CallRun(r.plugins[k].breaker, CallsOf(r, ops, k))
    decreases |ops|
  {
    if ops != [] {
      var before, op := ops[..|ops| - 1], ops[|ops| - 1];
      assert forall o <- before :: o in ops;
      assert Calm(op, k);
      BreakerSeesItsCalls(r, before, k);
      var r1 := Run(r, before);
      CalmStep(r1, k, op);
      if op.Execute? && Key(op.id) == k && Enabled(r1, op.id, op.institution) {
        B.CallRunSnoc(r.plugins[k].breaker, CallsOf(r, before, k), op.call);
      } else {
        assert CallsOf(r, ops, k) == CallsOf(r, before, k);
      }
    }
  }

  /** The amortised breaker bound inside the registry: however executions of other plugins,
      toggles and overrides interleave, a freshly registered plugin whose own calls are
      sequential runs at most `won * (threshold - 1) + threshold` failing actions plus one per
      cooldown. */
  lemma FailingActionsOfPluginBound(r: Reg, k: string, c: Config, t0: int, ops: seq<Op>)
    requires k in r.plugins && r.plugins[k] == Fresh(Normalize(c), t0)
    requires forall op <- ops :: Calm(op, k)
    requires B.Sequential(t0, CallsOf(r, ops, k))
    ensures var b, calls := r.plugins[k].breaker, CallsOf(r, ops, k);
            && b.threshold == Normalize(c).failureThreshold
            && b.cooldown == Normalize(c).cooldownSeconds * B.SECOND
            && B.Ran(b, calls, false) <= B.Allowance(b, t0, calls)
    ensures k in Run(r, ops).plugins
    ensures Run(r, ops).plugins[k].breaker == B.CallRun(r.plugins[k].breaker, CallsOf(r, ops, k))
  {
    BreakerSeesItsCalls(r, ops, k);
    assert r.plugins[k].breaker == B.New(Normalize(c).failureThreshold, Normalize(c).cooldownSeconds, t0);
    B.FailingActionsBound(Normalize(c).failureThreshold, Normalize(c).cooldownSeconds, t0, CallsOf(r, ops, k));
  }

  /** An override can switch a plugin off for one tenant but never on against the global switch,
      and no other tenant notices. */
  lemma OverrideIsLocal(r: Reg, inst: string, id: string, on: bool, other: string)
    requires Trim(other) != Trim(inst)
    ensures Enabled(Apply(r, Override(inst, id, on)), id, other) == Enabled(r, id, other)
    ensures Enabled(Apply(r, Override(inst, id, on)), id, inst) ==> r.plugins[Key(id)].config.enabled
  {
  }

  /** The switch a tenant has set for a key, if any. */
  function Switch(r: Reg, inst: string, k: string): Option<bool> {
    if inst in r.overrides && k in r.overrides[inst] then Some(r.overrides[inst][k]) else None
  }

  /** The tenant's latest override of a key in a run, or the one from before it. */
  function LatestOverride(r: Reg, ops: seq<Op>, inst: string, k: string): Option<bool> {
    if ops == [] then Switch(r, inst, k)
    else
      var last := ops[|ops| - 1];
      if last.Override? && Trim(last.institution) == inst && Key(last.id) == k then Some(last.enabled)
      else LatestOverride(r, ops[..|ops| - 1], inst, k)
  }

  lemma StepSwitch(r: Reg, op: Op, inst: string, k: string)
    requires inst != "" && k != ""
    ensures Switch(Apply(r, op), inst, k)
            == if op.Override? && Trim(op.institution) == inst && Key(op.id) == k then Some(op.enabled) else Switch(r, inst, k)
  {
  }

  lemma {:induction false} SwitchIsLatest(r: Reg, ops: seq<Op>, inst: string, k: string)
    requires inst != "" && k != ""
    ensures Switch(Run(r, ops), inst, k) == LatestOverride(r, ops, inst, k)
  {
    if ops != [] {
      SwitchIsLatest(r, ops[..|ops| - 1], inst, k);
      StepSwitch(Run(r, ops[..|ops| - 1]), ops[|ops| - 1], inst, k);
    }
  }

  /** After any run, deletions and new plugins under the same key included, a plugin is on for a
      tenant exactly if it is registered, globally on, and the tenant's latest override of its
      key, whichever plugin that was for, did not switch it off. */
  lemma EnabledByLatestOverride(r: Reg, ops: seq<Op>, id: string, institution: string)
    requires Trim(institution) != "" && Key(id) != ""
    ensures Enabled(Run(r, ops), id, institution) <==>
              && Key(id) in Run(r, ops).plugins && Run(r, ops).plugins[Key(id)].config.enabled
              && LatestOverride(r, ops, Trim(institution), Key(id)) != Some(false)
  {
    SwitchIsLatest(r, ops, Trim(institution), Key(id));
  }

  /** Deleting a plugin leaves its overrides in memory: one created in its place is on for a
      tenant exactly if it is created on and the tenant had not switched the old one off. */
  lemma RecreatedIsOnIff(r: Reg, id: string, c: Config, now: int, institution: string)
    requires Key(id) in r.plugins && !r.plugins[Key(id)].config.isSystem
    ensures var ops := [Delete(id), Create(id, c, now)];
            && Trim(institution) != "" && Key(id) != "" && NewKey(id, c.name) == Key(id)
            && Trim(c.name) != "" && Trim(c.endpointPrefix) != "" ==>
              (Enabled(Run(r, ops), id, institution)
               <==> c.enabled && Switch(r, Trim(institution), Key(id)) != Some(false))
  {
    var ops := [Delete(id), Create(id, c, now)];
    assert ops[..1] == [Delete(id)] && ops[..1][..0] == [];
    assert Run(r, ops[..1]) == Apply(r, Delete(id));
    assert Run(r, ops) == Apply(Apply(r, Delete(id)), Create(id, c, now));
  }
}
