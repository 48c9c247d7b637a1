/**
 * `FileConfigProvider`: a leaf provider whose `store` is nil until the first
 * successful load and is never reloaded afterwards. The value-level functions
 * say what one getter call answers and what the store becomes; the class's
 * methods are proved against them.
 */
module FileProvider {
  import opened Wrappers
  import opened ConfErrors
  import opened Conversions
  import opened ConfParse

  /** The lookup `value, ok := cp.store[key]` on a loaded store. */
  function Lookup(m: Store, key: string): Reply<string>
  {
    if key in m then Reply(m[key], None) else Reply("", Some(KeyNotFound(key)))
  }

  /** The store after one getter call: kept if loaded, else whatever the load produced (nil on failure). */
  function NextStore(store: Option<Store>, path: string, disk: Disk): Option<Store>
  {
    if store.Some? then store
    else match Load(path, disk)
      case Success(m) => Some(m)
      case Failure(_) => None
  }

  /** What `GetString(key)` answers when called with `store` as the cached state. */
  function StringReply(store: Option<Store>, path: string, disk: Disk, key: string): Reply<string>
  {
    match store
    case Some(m) => Lookup(m, key)
    case None =>
      match Load(path, disk)
      case Failure(e) => Reply("", Some(e))
      case Success(m) => Lookup(m, key)
  }

  /** The conversion step shared by the typed getters, applied to what `GetString` answered. */
  function Converted<T>(s: Reply<string>, key: string, parse: string -> Parsed<T>, typeName: string, zero: T): Reply<T>
  {
    if s.err.Some? then Reply(zero, s.err)
    else
      var p := parse(s.value);
      if p.ok then Reply(p.value, None) else Reply(p.value, Some(TypeConversion(key, s.value, typeName)))
  }

  /** What `GetFloat(key)` answers. */
  function FloatReply(store: Option<Store>, path: string, disk: Disk, key: string, parseFloat: FloatParser): Reply<Float64>
  {
    Converted(StringReply(store, path, disk, key), key, parseFloat, "float64", PositiveZero)
  }

  /** What `GetBool(key)` answers. */
  function BoolReply(store: Option<Store>, path: string, disk: Disk, key: string): Reply<bool>
  {
    Converted(StringReply(store, path, disk, key), key, ParseBool, "bool", false)
  }

  /**
   * The answer and the new store always agree: a loaded store answers every
   * key by lookup, and a store left nil means the load failed and the answer
   * is that load error.
   */
  lemma ReplyAgreesWithStore(store: Option<Store>, path: string, disk: Disk, key: string)
    ensures var next := NextStore(store, path, disk);
      && (next.Some? ==> StringReply(store, path, disk, key) == Lookup(next.value, key))
      && (next.None? ==> store.None? && Load(path, disk).Failure?
                         && StringReply(store, path, disk, key) == Reply("", Some(Load(path, disk).error)))
  {
  }

  /**
   * Calling a getter twice on the same disk is like calling it once: the first
   * call's store answers the same and is kept. (A provider listed twice in a
   * chain therefore behaves as if listed once.)
   */
  lemma RepeatedCall(store: Option<Store>, path: string, disk: Disk, key: string)
    ensures NextStore(NextStore(store, path, disk), path, disk) == NextStore(store, path, disk)
    ensures StringReply(NextStore(store, path, disk), path, disk, key) == StringReply(store, path, disk, key)
  {
  }

  /** `RepeatedCall` for `GetFloat`, which answers through `GetString`. */
  lemma RepeatedFloatCall(store: Option<Store>, path: string, disk: Disk, key: string, parseFloat: FloatParser)
    ensures FloatReply(NextStore(store, path, disk), path, disk, key, parseFloat) == FloatReply(store, path, disk, key, parseFloat)
  {
    RepeatedCall(store, path, disk, key);
  }

  /** `RepeatedCall` for `GetBool`, which answers through `GetString`. */
  lemma RepeatedBoolCall(store: Option<Store>, path: string, disk: Disk, key: string)
    ensures BoolReply(NextStore(store, path, disk), path, disk, key) == BoolReply(store, path, disk, key)
  {
    RepeatedCall(store, path, disk, key);
  }

  /** One `GetString` call on the state `disk` the file system is in at that moment. */
  datatype Call = Call(key: string, disk: Disk)

  /** The store after a sequence of `GetString` calls. */
  function StoreAfter(store: Option<Store>, path: string, calls: seq<Call>): Option<Store>
    decreases |calls|
  {
    if calls == [] then store
    else StoreAfter(NextStore(store, path, calls[0].disk), path, calls[1..])
  }

  /** The answers to a sequence of `GetString` calls, in order. */
  function RepliesOf(store: Option<Store>, path: string, calls: seq<Call>): (rs: seq<Reply<string>>)
    ensures |rs| == |calls|
    decreases |calls|
  {
    if calls == [] then []
    else [StringReply(store, path, calls[0].disk, calls[0].key)]
         + RepliesOf(NextStore(store, path, calls[0].disk), path, calls[1..])
  }

  /** A loaded store is never reloaded or changed: every later call is a lookup in it. */
  lemma {:induction false} LoadedStoreIsFinal(m: Store, path: string, calls: seq<Call>)
    ensures StoreAfter(Some(m), path, calls) == Some(m)
    ensures forall i :: 0 <= i < |calls| ==> RepliesOf(Some(m), path, calls)[i] == Lookup(m, calls[i].key)
  {
    if calls != [] {
      LoadedStoreIsFinal(m, path, calls[1..]);
    }
  }

  /**
   * From an unloaded store, each call retries the load until one succeeds:
   * the calls before it return their own load errors, and its map is cached
   * and answers every call from then on.
   */
  lemma {:induction false} FirstSuccessfulLoadIsCached(path: string, calls: seq<Call>, n: nat, m: Store)
    requires n < |calls| && Load(path, calls[n].disk) == Success(m)
    requires forall i :: 0 <= i < n ==> Load(path, calls[i].disk).Failure?
    ensures StoreAfter(None, path, calls) == Some(m)
    ensures forall i :: 0 <= i < n ==>
      RepliesOf(None, path, calls)[i] == Reply("", Some(Load(path, calls[i].disk).error))
    ensures forall i :: n <= i < |calls| ==> RepliesOf(None, path, calls)[i] == Lookup(m, calls[i].key)
  {
    var rs := RepliesOf(None, path, calls);
    if n == 0 {
      LoadedStoreIsFinal(m, path, calls[1..]);
      assert forall i :: 1 <= i < |calls| ==> rs[i] == RepliesOf(Some(m), path, calls[1..])[i - 1];
    } else {
      FirstSuccessfulLoadIsCached(path, calls[1..], n - 1, m);
      assert forall i :: 1 <= i < |calls| ==> rs[i] == RepliesOf(None, path, calls[1..])[i - 1];
    }
  }

  /** While every load fails, the store stays nil and each call returns its load error. */
  lemma {:induction false} FailedLoadsLeaveStoreUnset(path: string, calls: seq<Call>)
    requires forall i :: 0 <= i < |calls| ==> Load(path, calls[i].disk).Failure?
    ensures StoreAfter(None, path, calls) == None
    ensures forall i :: 0 <= i < |calls| ==>
      RepliesOf(None, path, calls)[i] == Reply("", Some(Load(path, calls[i].disk).error))
  {
    if calls != [] {
      FailedLoadsLeaveStoreUnset(path, calls[1..]);
      var rs := RepliesOf(None, path, calls);
      assert forall i :: 1 <= i < |calls| ==> rs[i] == RepliesOf(None, path, calls[1..])[i - 1];
    }
  }

  /**
   * A file that cannot be opened at the first call loads as the empty store,
   * so that call and every later one fail with `KeyNotFound` for its key,
   * never with a load error.
   */
  lemma MissingFileNeverLoadError(path: string, calls: seq<Call>)
    requires calls != [] && path !in calls[0].disk
    ensures StoreAfter(None, path, calls) == Some(map[])
    ensures forall i :: 0 <= i < |calls| ==>
      RepliesOf(None, path, calls)[i] == Reply("", Some(KeyNotFound(calls[i].key)))
  {
    FirstSuccessfulLoadIsCached(path, calls, 0, map[]);
  }

  /**
   * The typed getters report errors in a fixed order: a `GetString` error
   * unchanged, else a `TypeConversion` error naming key, raw value and type,
   * else the converted value with no error.
   */
  lemma TypedReplyCases<T>(s: Reply<string>, key: string, parse: string -> Parsed<T>, typeName: string, zero: T)
    ensures var r := Converted(s, key, parse, typeName, zero);
      && (r.err.None? <==> s.err.None? && parse(s.value).ok)
      && (s.err.Some? ==> r == Reply(zero, s.err))
      && (s.err.None? && !parse(s.value).ok ==>
            r.err == Some(TypeConversion(key, s.value, typeName)) && r.value == parse(s.value).value)
      && (r.err.None? ==> r.value == parse(s.value).value)
  {
  }

  /** A conversion error only ever comes from the conversion step, never from the lookup. */
  lemma TypeConversionOnlyFromConversion(store: Option<Store>, path: string, disk: Disk, key: string)
    ensures !StringReply(store, path, disk, key).err.Some?
         || !StringReply(store, path, disk, key).err.value.TypeConversion?
  {
    var s := StringReply(store, path, disk, key);
    if store.None? && Load(path, disk).Failure? {
      LoadNeverTypeConversion(path, disk);
    }
  }

  /** A load fails only with `Parsing` or `Unknown`. */
  lemma LoadNeverTypeConversion(path: string, disk: Disk)
    ensures Load(path, disk).Failure? ==> Load(path, disk).error.Parsing? || Load(path, disk).error.Unknown?
  {
    if path in disk {
      LoadErrorIsParsing(disk[path].lines);
    }
  }

  /** A parse fails only with `Parsing`. */
  lemma {:induction false} LoadErrorIsParsing(lines: seq<string>)
    ensures ParseLines(lines).Failure? ==> ParseLines(lines).error.Parsing?
  {
    if lines != [] {
      LoadErrorIsParsing(lines[..|lines| - 1]);
    }
  }

  class FileConfigProvider {
    const path: string
    var store: Option<Store>

    /** `NewFileConfigProvider`, with the path already resolved: nothing is loaded yet. */
    constructor (path: string)
      ensures this.path == path && store == None
    {
      this.path := path;
      store := None;
    }

    /**
     * Loads on first use, keeps a loaded store for good, and leaves the store
     * nil after a failed load so that the next call tries again.
     */
    method GetString(key: string, disk: Disk) returns (r: Reply<string>)
      modifies this
      ensures r == StringReply(old(store), path, disk, key)
      ensures store == NextStore(old(store), path, disk)
      ensures old(store).Some? ==> store == old(store)
      ensures store.Some? ==> r == Lookup(store.value, key)
      ensures store.None? ==> Load(path, disk).Failure? && r == Reply("", Some(Load(path, disk).error))
    {
      if store.None? {
        var loaded := InitMapFromFile(path, disk);
        if loaded.Failure? {
          return Reply("", Some(loaded.error));
        }
        store := Some(loaded.value);
      }
      var m := store.value;
      if key !in m {
        return Reply("", Some(KeyNotFound(key)));
      }
      return Reply(m[key], None);
    }

    /** `GetString`, then `strconv.ParseFloat(value, 64)`; the parser is passed in. */
    method GetFloat(key: string, disk: Disk, parseFloat: FloatParser) returns (r: Reply<Float64>)
      modifies this
      ensures r == FloatReply(old(store), path, disk, key, parseFloat)
      ensures store == NextStore(old(store), path, disk)
      ensures var s := StringReply(old(store), path, disk, key);
        && (s.err.Some? ==> r == Reply(PositiveZero, s.err))
        && (s.err.None? && !parseFloat(s.value).ok ==>
              r == Reply(parseFloat(s.value).value, Some(TypeConversion(key, s.value, "float64"))))
        && (s.err.None? && parseFloat(s.value).ok ==> r == Reply(parseFloat(s.value).value, None))
    {
      var s := GetString(key, disk);
      if s.err.Some? {
        return Reply(PositiveZero, s.err);
      }
      var p := parseFloat(s.value);
      if !p.ok {
        return Reply(p.value, Some(TypeConversion(key, s.value, "float64")));
      }
      return Reply(p.value, None);
    }

    /** `GetString`, then `strconv.ParseBool(value)`. */
    method GetBool(key: string, disk: Disk) returns (r: Reply<bool>)
      modifies this
      ensures r == BoolReply(old(store), path, disk, key)
      ensures store == NextStore(old(store), path, disk)
      ensures var s := StringReply(old(store), path, disk, key);
        && (s.err.Some? ==> r == Reply(false, s.err))
        && (s.err.None? && s.value !in TrueLiterals + FalseLiterals ==>
              r == Reply(false, Some(TypeConversion(key, s.value, "bool"))))
        && (s.err.None? && s.value in TrueLiterals + FalseLiterals ==> r == Reply(s.value in TrueLiterals, None))
    {
      var s := GetString(key, disk);
      if s.err.Some? {
        return Reply(false, s.err);
      }
      var p := ParseBool(s.value);
      if !p.ok {
        return Reply(p.value, Some(TypeConversion(key, s.value, "bool")));
      }
      return Reply(p.value, None);
    }
  }
}
