/** The logger whose configuration can be swapped at run time, and the handler that caches what it builds from it. */
module Logger {
  import opened Text
  import opened Domain

  // ---- configuration objects ----

  /** A Go map: a reference, so two configurations could share one. */
  class Table<K(==), V> {
    var m: map<K, V>

    constructor ()
      ensures m == map[]
    {
      m := map[];
    }

    method Delete(k: K)
      modifies this
      ensures m == old(m) - {k}
    {
      m := m - {k};
    }

    method Put(k: K, v: V)
      modifies this
      ensures m == old(m)[k := v]
    {
      m := m[k := v];
    }

    method Copy() returns (t: Table<K, V>)
      ensures fresh(t) && t.m == m
    {
      t := new Table();
      var todo := m.Keys;
      while todo != {}
        invariant todo <= m.Keys && fresh(t)
        invariant t.m == map k | k in m && k !in todo :: m[k]
        decreases |todo|
      {
        var k :| k in todo;
        t.Put(k, m[k]);
        todo := todo - {k};
      }
    }
  }

  datatype Format = TextFormat | JsonFormat

  /** What a configuration says, free of references. */
  datatype Settings = Settings(
    level: int, format: Format, output: string, masks: map<string, string>, removed: map<string, bool>,
    names: map<int, string>, masker: string, contextKeys: seq<string>)

  class Config {
    var level: int
    var format: Format
    var output: string
    var maskKeys: Table<string, string>
    var removeKeys: Table<string, bool>
    var levelNames: Table<int, string>
    var masker: string
    var contextKeys: array<string>

    ghost function Says(): Settings
      reads this, maskKeys, removeKeys, levelNames, contextKeys
    {
      Settings(level, format, output, maskKeys.m, removeKeys.m, levelNames.m, masker, contextKeys[..])
    }

    constructor (level: int, format: Format, output: string, masks: Table<string, string>, removed: Table<string, bool>,
                 names: Table<int, string>, masker: string, contextKeys: array<string>)
      ensures this.level == level && this.format == format && this.output == output && this.masker == masker
      ensures maskKeys == masks && removeKeys == removed && levelNames == names && this.contextKeys == contextKeys
    {
      this.level, this.format, this.output, this.masker := level, format, output, masker;
      maskKeys, removeKeys, levelNames, this.contextKeys := masks, removed, names, contextKeys;
    }

    /** A deep copy: it says the same and shares nothing. */
    method Clone() returns (c: Config)
      ensures fresh(c) && fresh(c.maskKeys) && fresh(c.removeKeys) && fresh(c.levelNames) && fresh(c.contextKeys)
      ensures c.Says() == Says()
      ensures c.level == level && c.format == format && c.output == output && c.masker == masker
      ensures c.maskKeys.m == maskKeys.m && c.removeKeys.m == removeKeys.m && c.levelNames.m == levelNames.m
      ensures c.contextKeys[..] == contextKeys[..]
    {
      var masks := maskKeys.Copy();
      var removed := removeKeys.Copy();
      var names := levelNames.Copy();
      var keys := new string[contextKeys.Length](_ => "");
      var i := 0;
      while i < keys.Length
        invariant 0 <= i <= keys.Length == contextKeys.Length
        invariant keys[..i] == contextKeys[..i]
        invariant masks.m == maskKeys.m && removed.m == removeKeys.m && names.m == levelNames.m
      {
        keys[i] := contextKeys[i];
        i := i + 1;
      }
      assert keys[..i] == keys[..] && contextKeys[..i] == contextKeys[..];
      c := new Config(level, format, output, masks, removed, names, masker, keys);
    }
  }

  /**
   * What the function handed to UpdateConfig may do to the configuration it is given: assign its fields, also
   * with new maps and slices, and change the contents of its maps and slices.
   */
  datatype Edit =
    | SetLevel(level: int)
    | SetFormat(format: Format)
    | SetOutput(output: string)
    | SetMasker(masker: string)
    | SetMasks(masks: map<string, string>)
    | SetRemoved(removed: map<string, bool>)
    | SetNames(names: map<int, string>)
    | SetContextKeys(keys: seq<string>)
    | Mask(key: string, kind: string)
    | Unmask(key: string)
    | Remove(key: string)
    | Keep(key: string)
    | NameLevel(level: int, name: string)
    | UnnameLevel(level: int)
    | SetContextKey(index: nat, key: string)
    | AppendContextKey(key: string)

  function Edited(s: Settings, e: Edit): Settings {
    match e
    case SetLevel(l) => s.(level := l)
    case SetFormat(f) => s.(format := f)
    case SetOutput(o) => s.(output := o)
    case SetMasker(m) => s.(masker := m)
    case SetMasks(m) => s.(masks := m)
    case SetRemoved(r) => s.(removed := r)
    case SetNames(n) => s.(names := n)
    case SetContextKeys(ks) => s.(contextKeys := ks)
    case Mask(k, v) => s.(masks := s.masks[k := v])
    case Unmask(k) => s.(masks := s.masks - {k})
    case Remove(k) => s.(removed := s.removed[k := true])
    case Keep(k) => s.(removed := s.removed - {k})
    case NameLevel(l, n) => s.(names := s.names[l := n])
    case UnnameLevel(l) => s.(names := s.names - {l})
    case SetContextKey(i, k) => if i < |s.contextKeys| then s.(contextKeys := s.contextKeys[i := k]) else s
    case AppendContextKey(k) => s.(contextKeys := s.contextKeys + [k])
  }

  function AllEdited(s: Settings, es: seq<Edit>): Settings {
    if es == [] then s else Edited(AllEdited(s, es[..|es| - 1]), es[|es| - 1])
  }

  predicate Assigns(e: Edit) {
    e.SetLevel? || e.SetFormat? || e.SetOutput? || e.SetMasker? || e.SetMasks? || e.SetRemoved? || e.SetNames? || e.SetContextKeys?
  }

  /** Only the given configuration and what it refers to may change; a part of it may be exchanged for a new one. */
  method ApplyEdit(c: Config, e: Edit)
    modifies c, c.maskKeys, c.removeKeys, c.levelNames, c.contextKeys
    ensures c.Says() == Edited(old(c.Says()), e)
    ensures c.maskKeys == old(c.maskKeys) || fresh(c.maskKeys)
    ensures c.removeKeys == old(c.removeKeys) || fresh(c.removeKeys)
    ensures c.levelNames == old(c.levelNames) || fresh(c.levelNames)
    ensures c.contextKeys == old(c.contextKeys) || fresh(c.contextKeys)
  {
    if Assigns(e) { Assign(c, e); } else { Change(c, e); }
  }

  method Assign(c: Config, e: Edit)
    requires Assigns(e)
    modifies c
    ensures c.Says() == Edited(old(c.Says()), e)
    ensures c.maskKeys == old(c.maskKeys) || fresh(c.maskKeys)
    ensures c.removeKeys == old(c.removeKeys) || fresh(c.removeKeys)
    ensures c.levelNames == old(c.levelNames) || fresh(c.levelNames)
    ensures c.contextKeys == old(c.contextKeys) || fresh(c.contextKeys)
  {
    match e {
      case SetLevel(l) => c.level := l;
      case SetFormat(f) => c.format := f;
      case SetOutput(o) => c.output := o;
      case SetMasker(m) => c.masker := m;
      case SetMasks(m) => c.maskKeys := MapOf(m);
      case SetRemoved(r) => c.removeKeys := MapOf(r);
      case SetNames(n) => c.levelNames := MapOf(n);
      case SetContextKeys(ks) => c.contextKeys := SliceOf(ks);
    }
  }

  method Change(c: Config, e: Edit)
    requires !Assigns(e)
    modifies c`contextKeys, c.maskKeys, c.removeKeys, c.levelNames, c.contextKeys
    ensures c.Says() == Edited(old(c.Says()), e)
    ensures c.maskKeys == old(c.maskKeys) && c.removeKeys == old(c.removeKeys) && c.levelNames == old(c.levelNames)
    ensures c.contextKeys == old(c.contextKeys) || fresh(c.contextKeys)
  {
    match e {
      case Mask(k, v) => c.maskKeys.Put(k, v);
      case Unmask(k) => c.maskKeys.Delete(k);
      case Remove(k) => c.removeKeys.Put(k, true);
      case Keep(k) => c.removeKeys.Delete(k);
      case NameLevel(l, n) => c.levelNames.Put(l, n);
      case UnnameLevel(l) => c.levelNames.Delete(l);
      case SetContextKey(i, k) =>
        if i < c.contextKeys.Length { c.contextKeys[i] := k; }
      case AppendContextKey(k) => c.contextKeys := SliceOf(c.contextKeys[..] + [k]);
    }
  }

  method MapOf<K(==), V>(m: map<K, V>) returns (t: Table<K, V>)
    ensures fresh(t) && t.m == m
  {
    t := new Table();
    t.m := m;
  }

  method SliceOf(keys: seq<string>) returns (a: array<string>)
    ensures fresh(a) && a[..] == keys
  {
    a := new string[|keys|](i requires 0 <= i < |keys| => keys[i]);
  }

  /** The pointer all loggers derived from one another share. */
  class ConfigPointer {
    var cfg: Config

    constructor (cfg: Config)
      ensures this.cfg == cfg
    {
      this.cfg := cfg;
    }

    /**
     * The new configuration is the old one edited; the old one, and every other published configuration
     * with all its maps and slices, still says what it said.
     */
    method UpdateConfig(es: seq<Edit>, ghost published: set<Config>)
      modifies this
      ensures fresh(cfg) && cfg.Says() == AllEdited(old(cfg.Says()), es)
      ensures forall c :: c in published ==> c.Says() == old(c.Says())
    {
      var c := cfg.Clone();
      var i := 0;
      while i < |es|
        invariant 0 <= i <= |es| && cfg == old(cfg)
        invariant fresh(c) && fresh(c.maskKeys) && fresh(c.removeKeys) && fresh(c.levelNames) && fresh(c.contextKeys)
        invariant c.Says() == AllEdited(old(cfg.Says()), es[..i])
      {
        assert es[..i + 1][..i] == es[..i];
        ApplyEdit(c, es[i]);
        i := i + 1;
      }
      assert es[..i] == es;
      cfg := c;
    }

    /** Only the threshold changes. */
    method SetLevel(level: int, ghost published: set<Config>)
      modifies this
      ensures fresh(cfg) && cfg.level == level && cfg.Says() == old(cfg.Says()).(level := level)
      ensures forall c :: c in published ==> c.Says() == old(c.Says())
    {
      var es := [Edit.SetLevel(level)];
      assert es[..0] == [] && AllEdited(cfg.Says(), es[..0]) == cfg.Says();
      UpdateConfig(es, published);
    }
  }

  // ---- the caching handler, one record at a time ----

  datatype Attr = Attr(key: string, value: string)

  /** A static handler chain; masking and removal keep consulting the configuration it was built from. */
  datatype Built = Built(level: int, format: Format, output: string, source: Config, attrs: seq<Attr>, groups: seq<string>)

  ghost function FreshlyBuilt(c: Config, attrs: seq<Attr>, groups: seq<string>): Built
    reads c
  {
    Built(c.level, c.format, c.output, c, attrs, groups)
  }

  function Present(keys: seq<string>, ctx: map<string, string>): seq<Attr> {
    if keys == [] then []
    else
      var last := keys[|keys| - 1];
      Present(keys[..|keys| - 1], ctx) + (if last in ctx then [Attr(last, ctx[last])] else [])
  }

  /** The places of the keys that the context has. */
  function Places(keys: seq<string>, ctx: map<string, string>): set<int> {
    set i | 0 <= i < |keys| && keys[i] in ctx
  }

  /** The keys that the context has, each with its value there, in the order of the keys. */
  lemma {:induction false} PresentMeaning(keys: seq<string>, ctx: map<string, string>, i: nat)
    requires i < |keys|
    ensures |Present(keys, ctx)| == |Places(keys, ctx)|
    ensures keys[i] in ctx ==>
      var n := |Places(keys[..i], ctx)|;
      n < |Present(keys, ctx)| && Present(keys, ctx)[n] == Attr(keys[i], ctx[keys[i]])
    decreases |keys|
  {
    var n := |keys| - 1;
    PlacesStep(keys, ctx);
    if n > 0 { PresentMeaning(keys[..n], ctx, if i < n then i else 0); }
    if i < n { assert keys[..n][..i] == keys[..i]; }
    if n == 0 { assert Places(keys[..0], ctx) == {}; }
  }

  lemma PlacesStep(keys: seq<string>, ctx: map<string, string>)
    requires keys != []
    ensures var n := |keys| - 1;
      Places(keys, ctx) == Places(keys[..n], ctx) + if keys[n] in ctx then {n} else {}
  {
    var n := |keys| - 1;
    forall i
      ensures i in Places(keys, ctx) <==> i in Places(keys[..n], ctx) || (i == n && keys[n] in ctx)
    {
      if 0 <= i < n { assert keys[..n][i] == keys[i]; }
    }
  }

  class DynamicHandler {
    const cfg: ConfigPointer
    const attrs: array<Attr>
    const groups: array<string>
    var cachedHandler: Option<Built>
    var cachedConfigVersion: Config?

    /** A cache that matches its version stamp. */
    ghost predicate Valid()
      reads this, cachedConfigVersion, attrs, groups
    {
      cachedConfigVersion != null && cachedHandler.Some?
      ==> cachedHandler.value == FreshlyBuilt(cachedConfigVersion, attrs[..], groups[..])
    }

    constructor (cfg: ConfigPointer, attrs: array<Attr>, groups: array<string>)
      ensures this.cfg == cfg && this.attrs == attrs && this.groups == groups
      ensures cachedHandler == None && cachedConfigVersion == null && Valid()
    {
      this.cfg, this.attrs, this.groups := cfg, attrs, groups;
      cachedHandler, cachedConfigVersion := None, null;
    }

    method GetOrBuildCachedHandler(c: Config) returns (h: Built)
      requires Valid()
      modifies this
      ensures Valid()
      ensures h == FreshlyBuilt(c, attrs[..], groups[..])
      ensures h.level == c.level && h.format == c.format && h.output == c.output && h.source == c
      ensures h.attrs == attrs[..] && h.groups == groups[..]
    {
      if cachedConfigVersion == c && cachedHandler.Some? {
        return cachedHandler.value;
      }
      h := Built(c.level, c.format, c.output, c, attrs[..], groups[..]);
      cachedHandler := Some(h);
      cachedConfigVersion := c;
    }

    /** The handler used is the one freshly built from the configuration in force. */
    method Handle(ctx: map<string, string>) returns (h: Built, extra: seq<Attr>)
      requires Valid()
      modifies this
      ensures Valid()
      ensures h == FreshlyBuilt(cfg.cfg, attrs[..], groups[..])
      ensures h.level == cfg.cfg.level && h.format == cfg.cfg.format && h.output == cfg.cfg.output && h.source == cfg.cfg
      ensures h.attrs == attrs[..] && h.groups == groups[..]
      ensures extra == Present(cfg.cfg.contextKeys[..], ctx)
    {
      var c := cfg.cfg;
      extra := [];
      var i := 0;
      while i < c.contextKeys.Length
        invariant 0 <= i <= c.contextKeys.Length
        invariant extra == Present(c.contextKeys[..i], ctx)
      {
        assert c.contextKeys[..i + 1][..i] == c.contextKeys[..i];
        if c.contextKeys[i] in ctx { extra := extra + [Attr(c.contextKeys[i], ctx[c.contextKeys[i]])]; }
        i := i + 1;
      }
      assert c.contextKeys[..i] == c.contextKeys[..];
      h := GetOrBuildCachedHandler(c);
    }

    /** The derived handler has its own attributes; nothing that existed changes. */
    method WithAttrs(more: seq<Attr>) returns (h: DynamicHandler)
      ensures fresh(h) && fresh(h.attrs) && h.cfg == cfg && h.groups == groups && h.Valid()
      ensures h.attrs[..] == attrs[..] + more
    {
      var n := attrs.Length;
      var all := new Attr[n + |more|](_ => Attr("", ""));
      var i := 0;
      while i < all.Length
        invariant 0 <= i <= all.Length && fresh(all)
        invariant all[..i] == (attrs[..] + more)[..i]
      {
        all[i] := if i < n then attrs[i] else more[i - n];
        i := i + 1;
      }
      h := new DynamicHandler(cfg, all, groups);
    }

    method WithGroup(name: string) returns (h: DynamicHandler)
      ensures fresh(h) && fresh(h.groups) && h.cfg == cfg && h.attrs == attrs && h.Valid()
      ensures h.groups[..] == groups[..] + [name]
    {
      var all := new string[groups.Length + 1](_ => "");
      var i := 0;
      while i < groups.Length
        invariant 0 <= i <= groups.Length == all.Length - 1 && fresh(all)
        invariant all[..i] == groups[..i]
      {
        all[i] := groups[i];
        i := i + 1;
      }
      all[i] := name;
      h := new DynamicHandler(cfg, attrs, all);
    }
  }

  // ---- attributes and groups in the order they were derived ----

  datatype Derivation = AddAttrs(attrs: seq<Attr>) | OpenGroup(name: string)

  function Qualified(path: seq<string>, attrs: seq<Attr>): seq<(seq<string>, Attr)> {
    seq(|attrs|, i requires 0 <= i < |attrs| => (path, attrs[i]))
  }

  /** The slog contract: an attribute belongs to the groups opened before it; an empty name opens none. */
  function InOrder(ds: seq<Derivation>, path: seq<string>): seq<(seq<string>, Attr)>
    decreases |ds|
  {
    if ds == [] then []
    else match ds[0]
      case AddAttrs(as') => Qualified(path, as') + InOrder(ds[1..], path)
      case OpenGroup(name) => InOrder(ds[1..], if name == "" then path else path + [name])
  }

  function AllAttrs(ds: seq<Derivation>): seq<Attr> {
    if ds == [] then [] else (if ds[0].AddAttrs? then ds[0].attrs else []) + AllAttrs(ds[1..])
  }

  /** This handler puts all attributes first and opens the groups after them. */
  function AttrsFirst(ds: seq<Derivation>): seq<(seq<string>, Attr)> {
    Qualified([], AllAttrs(ds))
  }

  predicate NoAttrsInGroup(ds: seq<Derivation>, grouped: bool)
    decreases |ds|
  {
    ds == [] || (if ds[0].AddAttrs? then (grouped ==> ds[0].attrs == []) && NoAttrsInGroup(ds[1..], grouped)
                 else NoAttrsInGroup(ds[1..], grouped || ds[0].name != ""))
  }

  lemma QualifiedConcat(path: seq<string>, a: seq<Attr>, b: seq<Attr>)
    ensures Qualified(path, a + b) == Qualified(path, a) + Qualified(path, b)
  {
  }

  lemma QualifiedSameIff(path: seq<string>, attrs: seq<Attr>)
    ensures Qualified(path, attrs) == Qualified([], attrs) <==> path == [] || attrs == []
  {
    if attrs != [] {
      assert Qualified(path, attrs)[0] == (path, attrs[0]) && Qualified([], attrs)[0] == ([], attrs[0]);
    }
  }

  lemma {:induction false} OrderMatters(ds: seq<Derivation>, path: seq<string>)
    ensures InOrder(ds, path) == AttrsFirst(ds) <==> NoAttrsInGroup(ds, path != [])
    decreases |ds|
  {
    if ds != [] {
      match ds[0] {
        case AddAttrs(as') =>
          OrderMatters(ds[1..], path);
          QualifiedConcat([], as', AllAttrs(ds[1..]));
          if InOrder(ds, path) == AttrsFirst(ds) {
            CutInjective(Qualified(path, as'), InOrder(ds[1..], path), Qualified([], as'), AttrsFirst(ds[1..]));
          }
          QualifiedSameIff(path, as');
        case OpenGroup(name) =>
          OrderMatters(ds[1..], if name == "" then path else path + [name]);
          assert AllAttrs(ds) == AllAttrs(ds[1..]);
      }
    }
  }

  /** A derived logger qualifies its attributes as slog requires exactly if none was added after a group was opened. */
  lemma DerivedOrderIff(ds: seq<Derivation>)
    ensures InOrder(ds, []) == AttrsFirst(ds) <==> NoAttrsInGroup(ds, false)
  {
    OrderMatters(ds, []);
  }

  // ---- several records at once ----

  /** Where a Handle call stands: it has loaded a configuration, passed the version check, or stored its handler. */
  datatype Stage = Loaded | Matched | HandlerStored

  datatype Call = Call(cfg: nat, stage: Stage)

  /** Configurations are numbered; cached is the one the cached handler was built from. */
  datatype Shared = Shared(current: nat, version: Option<nat>, cached: Option<nat>, calls: map<nat, Call>)

  datatype Move = Swap(cfg: nat) | Begin(id: nat) | Check(id: nat) | UseCached(id: nat) | StoreHandler(id: nat) | StoreVersion(id: nat)

  predicate CanMove(s: Shared, m: Move) {
    match m
    case Swap(c) => true
    case Begin(id) => id !in s.calls
    case Check(id) => id in s.calls && s.calls[id].stage == Loaded && s.version == Some(s.calls[id].cfg)
    case UseCached(id) => id in s.calls && s.calls[id].stage == Matched && s.cached.Some?
    case StoreHandler(id) => id in s.calls
      && ((s.calls[id].stage == Loaded && s.version != Some(s.calls[id].cfg)) || (s.calls[id].stage == Matched && s.cached.None?))
    case StoreVersion(id) => id in s.calls && s.calls[id].stage == HandlerStored
  }

  function Moved(s: Shared, m: Move): Shared
    requires CanMove(s, m)
  {
    match m
    case Swap(c) => s.(current := c)
    case Begin(id) => s.(calls := s.calls[id := Call(s.current, Loaded)])
    case Check(id) => s.(calls := s.calls[id := s.calls[id].(stage := Matched)])
    case UseCached(id) => s.(calls := s.calls - {id})
    case StoreHandler(id) => s.(cached := Some(s.calls[id].cfg), calls := s.calls[id := s.calls[id].(stage := HandlerStored)])
    case StoreVersion(id) => s.(version := Some(s.calls[id].cfg), calls := s.calls - {id})
  }

  /** The configuration behind the handler a finishing call uses. */
  function Used(s: Shared, m: Move): Option<nat>
    requires CanMove(s, m)
  {
    match m
    case UseCached(id) => s.cached
    case StoreVersion(id) => Some(s.calls[id].cfg)
    case _ => None
  }

  function CallOf(m: Move): Option<nat> {
    match m
    case Swap(_) => None
    case Begin(id) => Some(id)
    case Check(id) => Some(id)
    case UseCached(id) => Some(id)
    case StoreHandler(id) => Some(id)
    case StoreVersion(id) => Some(id)
  }

  /** Calls under way together have loaded the same configuration. */
  predicate SameConfig(s: Shared, m: Move) {
    m.Begin? ==> forall id :: id in s.calls ==> s.calls[id].cfg == s.current
  }

  ghost predicate Consistent(s: Shared) {
    && (forall i, j :: i in s.calls && j in s.calls ==> s.calls[i].cfg == s.calls[j].cfg)
    && (forall i :: i in s.calls && s.calls[i].stage == HandlerStored ==> s.cached == Some(s.calls[i].cfg))
    && (forall i :: i in s.calls && s.calls[i].stage == Matched ==> s.version == Some(s.calls[i].cfg))
    && (s.version.Some? && s.cached != s.version ==> exists i :: Restamping(s, i))
  }

  /** The call has stored its handler and is about to replace an older version stamp. */
  ghost predicate Restamping(s: Shared, i: nat) {
    i in s.calls && s.calls[i].stage == HandlerStored && s.version != Some(s.calls[i].cfg)
  }

  /** Every finishing call uses a handler built from the configuration it loaded. */
  lemma MoveIsConsistent(s: Shared, m: Move)
    requires Consistent(s) && CanMove(s, m) && SameConfig(s, m)
    ensures Consistent(Moved(s, m))
    ensures Used(s, m).Some? ==> Used(s, m) == Some(s.calls[CallOf(m).value].cfg)
  {
    if s.version.Some? && s.cached != s.version {
      var i :| Restamping(s, i);
      assert !m.StoreVersion? ==> Restamping(Moved(s, m), i);
    }
    if m.StoreHandler? && s.version != Some(s.calls[m.id].cfg) {
      assert Restamping(Moved(s, m), m.id);
    }
  }

  ghost predicate LogRun(ss: seq<Shared>, ms: seq<Move>) {
    |ss| == |ms| + 1 && ss[0].version == None && ss[0].cached == None && ss[0].calls == map[]
    && forall i :: 0 <= i < |ms| ==> CanMove(ss[i], ms[i]) && ss[i + 1] == Moved(ss[i], ms[i])
  }

  lemma {:induction false} RunIsConsistent(ss: seq<Shared>, ms: seq<Move>, n: nat)
    requires LogRun(ss, ms) && n <= |ms| && forall i :: 0 <= i < n ==> SameConfig(ss[i], ms[i])
    ensures Consistent(ss[n])
  {
    if n > 0 {
      RunIsConsistent(ss, ms, n - 1);
      MoveIsConsistent(ss[n - 1], ms[n - 1]);
    }
  }

  /**
   * With swaps at any moment and any number of concurrent calls, as long as calls that overlap loaded the
   * same configuration, each one logs through a handler built from the configuration it loaded.
   */
  lemma CallsUseTheirConfig(ss: seq<Shared>, ms: seq<Move>, n: nat)
    requires LogRun(ss, ms) && n < |ms| && forall i :: 0 <= i <= n ==> SameConfig(ss[i], ms[i])
    ensures Used(ss[n], ms[n]).Some? ==> Used(ss[n], ms[n]) == Some(ss[n].calls[CallOf(ms[n]).value].cfg)
  {
    RunIsConsistent(ss, ms, n);
    MoveIsConsistent(ss[n], ms[n]);
  }

  /** Two calls with a swap between their loads, then a third one. */
  function SwapMoves(b: nat): seq<Move> {
    [Begin(0), Swap(b), Begin(1), StoreHandler(1), StoreHandler(0), StoreVersion(0), StoreVersion(1), Begin(2), Check(2), UseCached(2)]
  }

  function SwapState(a: nat, b: nat, k: nat): Shared {
    Shared(
      if k < 2 then a else b,
      if k < 6 then None else if k == 6 then Some(a) else Some(b),
      if k < 4 then None else if k == 4 then Some(b) else Some(a),
      (if 1 <= k < 6 then map[0 := Call(a, if k < 5 then Loaded else HandlerStored)] else map[])
      + (if 3 <= k < 7 then map[1 := Call(b, if k < 4 then Loaded else HandlerStored)] else map[])
      + (if 8 <= k < 10 then map[2 := Call(b, if k < 9 then Loaded else Matched)] else map[]))
  }

  lemma SwapStep(a: nat, b: nat, k: nat)
    requires a != b && k < 10
    ensures CanMove(SwapState(a, b, k), SwapMoves(b)[k])
    ensures Moved(SwapState(a, b, k), SwapMoves(b)[k]) == SwapState(a, b, k + 1)
  {
    var s, v := SwapState(a, b, k), SwapState(a, b, k + 1);
    var m := SwapMoves(b)[k];
    assert CanMove(s, m);
    assert Moved(s, m).calls == v.calls;
  }

  /** Two calls around a swap can leave the new version stamped on the old handler, and a later call then uses it. */
  lemma SwapBetweenCallsMismatches(a: nat, b: nat) returns (ss: seq<Shared>, ms: seq<Move>)
    requires a != b
    ensures LogRun(ss, ms) && ss[0].current == a && |ms| == 10
    ensures ms[9] == UseCached(2) && ss[9].calls[2].cfg == b && Used(ss[9], ms[9]) == Some(a)
  {
    ms := SwapMoves(b);
    ss := seq(11, k requires 0 <= k < 11 => SwapState(a, b, k));
    forall k | 0 <= k < 10
      ensures CanMove(ss[k], ms[k]) && ss[k + 1] == Moved(ss[k], ms[k])
    {
      SwapStep(a, b, k);
    }
  }
}
