/**
 * `ChainConfigProvider`: tries its providers in order and answers with the
 * first success. When every provider fails, the Go code panics with the last
 * error it saw (nil for an empty chain); here that is the `Panic` outcome.
 */
module Chain {
  import opened Wrappers
  import opened ConfErrors
  import opened Conversions
  import opened ConfParse
  import opened FileProvider

  /** How a chain getter ends: it returns a value, or it panics with the last error (None = nil). */
  datatype Outcome<T> = Value(value: T) | Panic(lastErr: Option<ConfError>)

  /** The chain loop over the answers its providers give, in priority order. */
  function Resolve<T>(replies: seq<Reply<T>>): Outcome<T>
  {
    ResolveFrom(replies, None)
  }

  /** The same loop, entered with `last` as the error seen so far. */
  function ResolveFrom<T>(replies: seq<Reply<T>>, last: Option<ConfError>): Outcome<T>
    decreases |replies|
  {
    if replies == [] then Panic(last)
    else if replies[0].err.None? then Value(replies[0].value)
    else ResolveFrom(replies[1..], replies[0].err)
  }

  /** How many providers the loop calls: up to and including the first that succeeds. */
  function Consulted<T>(replies: seq<Reply<T>>): (n: nat)
    ensures n <= |replies|
    decreases |replies|
  {
    if replies == [] then 0
    else if replies[0].err.None? then 1
    else 1 + Consulted(replies[1..])
  }

  /**
   * First match wins: the answer is that of the lowest-index provider that
   * succeeds, and no provider after it is called.
   */
  lemma {:induction false} FirstSuccessWins<T>(replies: seq<Reply<T>>, i: nat, last: Option<ConfError>)
    requires i < |replies| && replies[i].err.None?
    requires forall j :: 0 <= j < i ==> replies[j].err.Some?
    ensures ResolveFrom(replies, last) == Value(replies[i].value)
    ensures Consulted(replies) == i + 1
  {
    if i > 0 {
      FirstSuccessWins(replies[1..], i - 1, replies[0].err);
    }
  }

  /**
   * Exhaustion: when every provider fails, the chain panics with the last
   * provider's error, or with nil when the chain is empty, having called every provider.
   */
  lemma {:induction false} AllFailPanics<T>(replies: seq<Reply<T>>, last: Option<ConfError>)
    requires forall j :: 0 <= j < |replies| ==> replies[j].err.Some?
    ensures ResolveFrom(replies, last) == Panic(if replies == [] then last else replies[|replies| - 1].err)
    ensures Consulted(replies) == |replies|
  {
    if replies != [] {
      AllFailPanics(replies[1..], replies[0].err);
    }
  }

  /** The chain returns a value exactly when some provider succeeds. */
  lemma ValueIffSomeSuccess<T>(replies: seq<Reply<T>>)
    ensures Resolve(replies).Value? <==> exists i :: 0 <= i < |replies| && replies[i].err.None?
  {
    if i :| 0 <= i < |replies| && replies[i].err.None? {
      var k := FirstSuccess(replies, i);
      FirstSuccessWins(replies, k, None);
    } else {
      AllFailPanics(replies, None);
    }
  }

  /** The lowest index at or below `i` whose answer succeeds. */
  lemma {:induction false} FirstSuccess<T>(replies: seq<Reply<T>>, i: nat) returns (k: nat)
    requires i < |replies| && replies[i].err.None?
    ensures k <= i && replies[k].err.None?
    ensures forall j :: 0 <= j < k ==> replies[j].err.Some?
  {
    if exists j :: 0 <= j < i && replies[j].err.None? {
      var j :| 0 <= j < i && replies[j].err.None?;
      k := FirstSuccess(replies, j);
    } else {
      k := i;
    }
  }

  /** Layered stores, highest priority first: an earlier store's entry hides a later one's. */
  function Overlay(ms: seq<Store>): Store
    decreases |ms|
  {
    if ms == [] then map[] else Overlay(ms[1..]) + ms[0]
  }

  /** The answers of loaded providers with stores `ms` to `GetString(key)`. */
  function Lookups(ms: seq<Store>, key: string): (rs: seq<Reply<string>>)
    ensures |rs| == |ms|
    ensures forall i :: 0 <= i < |ms| ==> rs[i] == Lookup(ms[i], key)
    decreases |ms|
  {
    if ms == [] then [] else [Lookup(ms[0], key)] + Lookups(ms[1..], key)
  }

  /**
   * A chain of loaded providers answers like one store made by layering
   * theirs, earlier over later; a key in none of them panics with `KeyNotFound`.
   */
  lemma {:induction false} ChainIsOverlay(ms: seq<Store>, key: string, last: Option<ConfError>)
    ensures ResolveFrom(Lookups(ms, key), last) ==
      if key in Overlay(ms) then Value(Overlay(ms)[key])
      else Panic(if ms == [] then last else Some(KeyNotFound(key)))
  {
    if ms != [] {
      var rs := Lookups(ms, key);
      assert rs[1..] == Lookups(ms[1..], key);
      ChainIsOverlay(ms[1..], key, rs[0].err);
    }
  }

  /** Two layered files: a key missing from the first is taken from the second; a key in both from the first. */
  lemma ChainExample()
    ensures Resolve(Lookups([map[], map["X" := "1"]], "X")) == Value("1")
    ensures Resolve(Lookups([map["X" := "A"], map["X" := "B"]], "X")) == Value("A")
  {
    ChainIsOverlay([map[], map["X" := "1"]], "X", None);
    ChainIsOverlay([map["X" := "A"], map["X" := "B"]], "X", None);
  }

  /** What the closure handed to `chainLookup` does with each provider: call one typed getter and return its error. */
  datatype Probe =
    | ProbeString(key: string)
    | ProbeFloat(key: string, parseFloat: FloatParser)
    | ProbeBool(key: string)

  /** The error a probe returns for one provider state. */
  function ProbeError(f: Probe, store: Option<Store>, path: string, disk: Disk): Option<ConfError>
  {
    match f
    case ProbeString(k) => StringReply(store, path, disk, k).err
    case ProbeFloat(k, parse) => FloatReply(store, path, disk, k, parse).err
    case ProbeBool(k) => BoolReply(store, path, disk, k).err
  }

  /** A probe calls one getter, so it moves the store exactly as a `GetString` call. */
  lemma RepeatedProbe(f: Probe, store: Option<Store>, path: string, disk: Disk)
    ensures ProbeError(f, NextStore(store, path, disk), path, disk) == ProbeError(f, store, path, disk)
  {
    RepeatedCall(store, path, disk, f.key);
  }

  /** Runs the closure `f` on provider `p`: one typed getter call, returning its error. */
  method Invoke(p: FileConfigProvider, f: Probe, disk: Disk) returns (e: Option<ConfError>)
    modifies p
    ensures e == ProbeError(f, old(p.store), p.path, disk)
    ensures p.store == NextStore(old(p.store), p.path, disk)
  {
    match f {
      case ProbeString(k) =>
        var r := p.GetString(k, disk);
        e := r.err;
      case ProbeFloat(k, parse) =>
        var r := p.GetFloat(k, disk, parse);
        e := r.err;
      case ProbeBool(k) =>
        var r := p.GetBool(k, disk);
        e := r.err;
    }
  }

  /** The answers providers `ps`, holding stores `ss`, give to `GetString(key)`, in chain order. */
  function StringAnswers(ps: seq<FileConfigProvider>, ss: seq<Option<Store>>, key: string, disk: Disk): (rs: seq<Reply<string>>)
    requires |ss| == |ps|
    ensures |rs| == |ps| && forall i :: 0 <= i < |ps| ==> rs[i] == StringReply(ss[i], ps[i].path, disk, key)
  {
    seq(|ps|, i requires 0 <= i < |ps| => StringReply(ss[i], ps[i].path, disk, key))
  }

  /** The same for `GetFloat(key)`. */
  function FloatAnswers(ps: seq<FileConfigProvider>, ss: seq<Option<Store>>, key: string, disk: Disk,
                        parseFloat: FloatParser): (rs: seq<Reply<Float64>>)
    requires |ss| == |ps|
    ensures |rs| == |ps| && forall i :: 0 <= i < |ps| ==> rs[i] == FloatReply(ss[i], ps[i].path, disk, key, parseFloat)
  {
    seq(|ps|, i requires 0 <= i < |ps| => FloatReply(ss[i], ps[i].path, disk, key, parseFloat))
  }

  /** The same for `GetBool(key)`. */
  function BoolAnswers(ps: seq<FileConfigProvider>, ss: seq<Option<Store>>, key: string, disk: Disk): (rs: seq<Reply<bool>>)
    requires |ss| == |ps|
    ensures |rs| == |ps| && forall i :: 0 <= i < |ps| ==> rs[i] == BoolReply(ss[i], ps[i].path, disk, key)
  {
    seq(|ps|, i requires 0 <= i < |ps| => BoolReply(ss[i], ps[i].path, disk, key))
  }

  /** The errors the closure `f` returns for providers `ps` holding stores `ss`. */
  function ProbeAnswers(ps: seq<FileConfigProvider>, ss: seq<Option<Store>>, f: Probe, disk: Disk): (rs: seq<Reply<()>>)
    requires |ss| == |ps|
    ensures |rs| == |ps| && forall i :: 0 <= i < |ps| ==> rs[i] == Reply((), ProbeError(f, ss[i], ps[i].path, disk))
  {
    seq(|ps|, i requires 0 <= i < |ps| => Reply((), ProbeError(f, ss[i], ps[i].path, disk)))
  }

  /** The stores providers `ps`, holding `ss`, are left with by one getter call each on `disk`. */
  function NextStores(ps: seq<FileConfigProvider>, ss: seq<Option<Store>>, disk: Disk): (ns: seq<Option<Store>>)
    requires |ss| == |ps|
    ensures |ns| == |ps| && forall i :: 0 <= i < |ps| ==> ns[i] == NextStore(ss[i], ps[i].path, disk)
  {
    seq(|ps|, i requires 0 <= i < |ps| => NextStore(ss[i], ps[i].path, disk))
  }

  class ChainConfigProvider {
    const chain: seq<FileConfigProvider>

    /** `NewChainConfigProvider(chain)`. */
    constructor (chain: seq<FileConfigProvider>)
      ensures this.chain == chain
    {
      this.chain := chain;
    }

    /** The providers' stores, in chain order. */
    ghost function Stores(): (ss: seq<Option<Store>>)
      reads chain
      ensures |ss| == |chain| && forall j :: 0 <= j < |chain| ==> ss[j] == chain[j].store
    {
      seq(|chain|, j reads chain requires 0 <= j < |chain| => chain[j].store)
    }

    /**
     * Store snapshot `cur` is the chain's once the first `n` providers have been
     * called: a provider among them holds its store from `after`, any other its
     * store from `before`.
     */
    predicate CalledFirstIn(cur: seq<Option<Store>>, n: nat, before: seq<Option<Store>>, after: seq<Option<Store>>)
      requires n <= |chain| && |cur| == |chain| && |before| == |chain| && |after| == |chain|
    {
      forall j :: 0 <= j < |chain| ==> cur[j] == if chain[j] in chain[..n] then after[j] else before[j]
    }

    /** `CalledFirstIn` of the current stores. */
    ghost predicate CalledFirst(n: nat, before: seq<Option<Store>>, after: seq<Option<Store>>)
      requires n <= |chain| && |before| == |chain| && |after| == |chain|
      reads chain
    {
      CalledFirstIn(Stores(), n, before, after)
    }

    /** Snapshots taken from the chain itself: a provider listed twice has one store after the calls. */
    predicate Consistent(after: seq<Option<Store>>)
      requires |after| == |chain|
    {
      forall j, k :: 0 <= j < |chain| && 0 <= k < |chain| && chain[j] == chain[k] ==> after[j] == after[k]
    }

    /** Calling provider `i` and nothing else moves the chain from `CalledFirst(i)` to `CalledFirst(i + 1)`. */
    lemma CallStep(i: nat, os: seq<Option<Store>>, ns: seq<Option<Store>>, pre: seq<Option<Store>>)
      requires i < |chain| && |os| == |chain| && |ns| == |chain| && |pre| == |chain|
      requires Consistent(ns)
      requires CalledFirstIn(pre, i, os, ns)
      requires chain[i].store == ns[i]
      requires forall j :: 0 <= j < |chain| && chain[j] != chain[i] ==> chain[j].store == pre[j]
      ensures CalledFirst(i + 1, os, ns)
    {
      assert chain[..i + 1] == chain[..i] + [chain[i]];
    }

    /** Step `i` of a walk that started from stores `os`: one call of provider `i`. */
    method StringStep(i: nat, key: string, disk: Disk, ghost os: seq<Option<Store>>, ghost ns: seq<Option<Store>>) returns (r: Reply<string>)
      requires i < |chain| && |os| == |chain| && ns == NextStores(chain, os, disk)
      requires Consistent(ns) && CalledFirst(i, os, ns)
      modifies chain[i]
      ensures r == StringReply(os[i], chain[i].path, disk, key)
      ensures CalledFirst(i + 1, os, ns)
    {
      var p := chain[i];
      RepeatedCall(os[i], p.path, disk, key);
      ghost var pre := Stores();
      assert pre[i] == ns[i] || pre[i] == os[i];
      r := p.GetString(key, disk);
      CallStep(i, os, ns, pre);
    }

    /** Step `i` of a walk that started from stores `os`: one call of provider `i`. */
    method FloatStep(i: nat, key: string, disk: Disk, parseFloat: FloatParser, ghost os: seq<Option<Store>>, ghost ns: seq<Option<Store>>) returns (r: Reply<Float64>)
      requires i < |chain| && |os| == |chain| && ns == NextStores(chain, os, disk)
      requires Consistent(ns) && CalledFirst(i, os, ns)
      modifies chain[i]
      ensures r == FloatReply(os[i], chain[i].path, disk, key, parseFloat)
      ensures CalledFirst(i + 1, os, ns)
    {
      var p := chain[i];
      RepeatedFloatCall(os[i], p.path, disk, key, parseFloat);
      ghost var pre := Stores();
      assert pre[i] == ns[i] || pre[i] == os[i];
      r := p.GetFloat(key, disk, parseFloat);
      CallStep(i, os, ns, pre);
    }

    /** Step `i` of a walk that started from stores `os`: one call of provider `i`. */
    method BoolStep(i: nat, key: string, disk: Disk, ghost os: seq<Option<Store>>, ghost ns: seq<Option<Store>>) returns (r: Reply<bool>)
      requires i < |chain| && |os| == |chain| && ns == NextStores(chain, os, disk)
      requires Consistent(ns) && CalledFirst(i, os, ns)
      modifies chain[i]
      ensures r == BoolReply(os[i], chain[i].path, disk, key)
      ensures CalledFirst(i + 1, os, ns)
    {
      var p := chain[i];
      RepeatedBoolCall(os[i], p.path, disk, key);
      ghost var pre := Stores();
      assert pre[i] == ns[i] || pre[i] == os[i];
      r := p.GetBool(key, disk);
      CallStep(i, os, ns, pre);
    }

    /** Step `i` of a walk that started from stores `os`: one call of provider `i`. */
    method ProbeStep(i: nat, f: Probe, disk: Disk, ghost os: seq<Option<Store>>, ghost ns: seq<Option<Store>>) returns (e: Option<ConfError>)
      requires i < |chain| && |os| == |chain| && ns == NextStores(chain, os, disk)
      requires Consistent(ns) && CalledFirst(i, os, ns)
      modifies chain[i]
      ensures e == ProbeError(f, os[i], chain[i].path, disk)
      ensures CalledFirst(i + 1, os, ns)
    {
      var p := chain[i];
      RepeatedProbe(f, os[i], p.path, disk);
      ghost var pre := Stores();
      assert pre[i] == ns[i] || pre[i] == os[i];
      e := Invoke(p, f, disk);
      CallStep(i, os, ns, pre);
    }

    /**
     * `GetString`: the first provider that answers wins; the providers after
     * it are not called; if all fail, the outcome is a panic with the last error.
     */
    method GetString(key: string, disk: Disk) returns (o: Outcome<string>)
      modifies chain
      ensures o == Resolve(StringAnswers(chain, old(Stores()), key, disk))
      ensures CalledFirst(Consulted(StringAnswers(chain, old(Stores()), key, disk)), old(Stores()), NextStores(chain, old(Stores()), disk))
    {
      ghost var os := Stores();
      ghost var ns := NextStores(chain, os, disk);
      ghost var rs := StringAnswers(chain, os, key, disk);
      assert Consistent(ns);
      var err: Option<ConfError> := None;
      var i := 0;
      while i < |chain|
        invariant 0 <= i <= |chain|
        invariant ResolveFrom(rs[i..], err) == Resolve(rs)
        invariant i + Consulted(rs[i..]) == Consulted(rs)
        invariant CalledFirst(i, os, ns)
      {
        var r := StringStep(i, key, disk, os, ns);
        assert r == rs[i];
        assert rs[i..][1..] == rs[i + 1..];
        if r.err.None? {
          return Value(r.value);
        }
        err := r.err;
        i := i + 1;
      }
      return Panic(err);
    }

    /** `GetFloat`: as `GetString`, with each provider's `GetFloat`. */
    method GetFloat(key: string, disk: Disk, parseFloat: FloatParser) returns (o: Outcome<Float64>)
      modifies chain
      ensures o == Resolve(FloatAnswers(chain, old(Stores()), key, disk, parseFloat))
      ensures CalledFirst(Consulted(FloatAnswers(chain, old(Stores()), key, disk, parseFloat)), old(Stores()), NextStores(chain, old(Stores()), disk))
    {
      ghost var os := Stores();
      ghost var ns := NextStores(chain, os, disk);
      ghost var rs := FloatAnswers(chain, os, key, disk, parseFloat);
      assert Consistent(ns);
      var err: Option<ConfError> := None;
      var i := 0;
      while i < |chain|
        invariant 0 <= i <= |chain|
        invariant ResolveFrom(rs[i..], err) == Resolve(rs)
        invariant i + Consulted(rs[i..]) == Consulted(rs)
        invariant CalledFirst(i, os, ns)
      {
        var r := FloatStep(i, key, disk, parseFloat, os, ns);
        assert r == rs[i];
        assert rs[i..][1..] == rs[i + 1..];
        if r.err.None? {
          return Value(r.value);
        }
        err := r.err;
        i := i + 1;
      }
      return Panic(err);
    }

    /** `GetBool`: as `GetString`, with each provider's `GetBool`. */
    method GetBool(key: string, disk: Disk) returns (o: Outcome<bool>)
      modifies chain
      ensures o == Resolve(BoolAnswers(chain, old(Stores()), key, disk))
      ensures CalledFirst(Consulted(BoolAnswers(chain, old(Stores()), key, disk)), old(Stores()), NextStores(chain, old(Stores()), disk))
    {
      ghost var os := Stores();
      ghost var ns := NextStores(chain, os, disk);
      ghost var rs := BoolAnswers(chain, os, key, disk);
      assert Consistent(ns);
      var err: Option<ConfError> := None;
      var i := 0;
      while i < |chain|
        invariant 0 <= i <= |chain|
        invariant ResolveFrom(rs[i..], err) == Resolve(rs)
        invariant i + Consulted(rs[i..]) == Consulted(rs)
        invariant CalledFirst(i, os, ns)
      {
        var r := BoolStep(i, key, disk, os, ns);
        assert r == rs[i];
        assert rs[i..][1..] == rs[i + 1..];
        if r.err.None? {
          return Value(r.value);
        }
        err := r.err;
        i := i + 1;
      }
      return Panic(err);
    }

    /**
     * `chainLookup(key, f)`: calls `f` on each provider until it returns nil;
     * panics with the last error otherwise. `key` is not used, as in the source.
     */
    method ChainLookup(key: string, f: Probe, disk: Disk) returns (o: Outcome<()>)
      modifies chain
      ensures o == Resolve(ProbeAnswers(chain, old(Stores()), f, disk))
      ensures CalledFirst(Consulted(ProbeAnswers(chain, old(Stores()), f, disk)), old(Stores()), NextStores(chain, old(Stores()), disk))
    {
      ghost var os := Stores();
      ghost var ns := NextStores(chain, os, disk);
      ghost var rs := ProbeAnswers(chain, os, f, disk);
      assert Consistent(ns);
      var err: Option<ConfError> := None;
      var i := 0;
      while i < |chain|
        invariant 0 <= i <= |chain|
        invariant ResolveFrom(rs[i..], err) == Resolve(rs)
        invariant i + Consulted(rs[i..]) == Consulted(rs)
        invariant CalledFirst(i, os, ns)
      {
        var e := ProbeStep(i, f, disk, os, ns);
        assert e == rs[i].err;
        assert rs[i..][1..] == rs[i + 1..];
        if e.None? {
          return Value(());
        }
        err := e;
        i := i + 1;
      }
      return Panic(err);
    }

    /** With every provider loaded, the chain's `GetString` answers like the layered stores. */
    lemma LoadedChainIsOverlay(key: string, disk: Disk, ms: seq<Store>)
      requires |ms| == |chain|
      requires forall i :: 0 <= i < |chain| ==> chain[i].store == Some(ms[i])
      ensures Resolve(StringAnswers(chain, Stores(), key, disk)) ==
        if key in Overlay(ms) then Value(Overlay(ms)[key])
        else Panic(if ms == [] then None else Some(KeyNotFound(key)))
    {
      assert StringAnswers(chain, Stores(), key, disk) == Lookups(ms, key);
      ChainIsOverlay(ms, key, None);
    }
  }
}
