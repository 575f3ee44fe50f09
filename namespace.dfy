/**
 * The namespace binder: name derivation, the lookup-with-fallback protocol shared by every
 * `Bind*` operation, and the typed instances of that protocol.
 *
 * The process environment is the map `env`; a Go destination pointer `*ptr` is a `Cell`.
 */
module Namespaces {
  import opened Wrappers
  import opened Ascii
  import opened Strconv
  import opened EnvRecord

  /** A snapshot of the process environment, read by exact name. */
  type Environ = map<string, string>

  /** The caller-owned variable a binder writes through. */
  class Cell<T> {
    var value: T

    constructor (v: T)
      ensures value == v
    {
      value := v;
    }
  }

  /** `os.LookupEnv`: the value and whether the variable is set. */
  function Lookup(env: Environ, name: string): (r: Option<string>)
    ensures r.Some? <==> name in env
    ensures r.Some? ==> r.value == env[name]
  {
    if name in env then Some(env[name]) else None
  }

  /**
   * Stage one of every typed binder: the string the record keeps. The raw value when the
   * variable is set, otherwise the formatted first default, otherwise "".
   */
  function RecordedValue<T>(raw: Option<string>, def: seq<T>, format: T -> string): (v: string)
    ensures raw.Some? ==> v == raw.value
    ensures raw.None? && |def| > 0 ==> v == format(def[0])
    ensures raw.None? && |def| == 0 ==> v == ""
  {
    match raw
    case Some(v) => v
    case None => if |def| > 0 then format(def[0]) else ""
  }

  /**
   * Stage two: what the destination holds afterwards. The parsed value on success; on
   * failure the first default if there is one, otherwise the value it held before.
   */
  function BoundValue<T>(recorded: string, def: seq<T>, parse: string -> Option<T>, current: T): (x: T)
    ensures parse(recorded).Some? ==> x == parse(recorded).value
    ensures parse(recorded).None? && |def| > 0 ==> x == def[0]
    ensures parse(recorded).None? && |def| == 0 ==> x == current
  {
    match parse(recorded)
    case Some(x) => x
    case None => if |def| > 0 then def[0] else current
  }

  /** A parser that first trims white space, as the IP, CIDR, time and duration binders do. */
  function TrimThen<T>(parse: string -> Option<T>): (p: string -> Option<T>)
    ensures forall s :: p(s) == parse(TrimSpace(s))
  {
    s => parse(TrimSpace(s))
  }

  /** The switch of `BindBool`: trimmed and lower-cased, exactly four tokens are accepted. */
  function ParseBool(s: string): (r: Option<bool>)
    ensures r == Some(true) <==> Lower(TrimSpace(s)) in {"1", "true"}
    ensures r == Some(false) <==> Lower(TrimSpace(s)) in {"0", "false"}
    ensures r == None <==> Lower(TrimSpace(s)) !in {"1", "true", "0", "false"}
  {
    var t := Lower(TrimSpace(s));
    if t == "1" || t == "true" then Some(true)
    else if t == "0" || t == "false" then Some(false)
    else None
  }

  /** A string is kept as it is. */
  function Verbatim(s: string): string {
    s
  }

  /** A binder prefix, fixed when the namespace is created. */
  datatype Namespace = Namespace(prefix: string) {

    /** What `NewNamespace` guarantees of a prefix: no spaces and nothing left to upper-case. */
    predicate Valid() {
      ' ' !in prefix && Upper(prefix) == prefix
    }

    /** `new`: the prefix and the field joined by `_`, spaces in the field replaced, upper-cased. */
    function DerivedName(field: string): (name: string)
      ensures |name| == |prefix| + 1 + |field|
      ensures name[..|prefix|] == Upper(prefix)
      ensures name[|prefix|] == '_'
      ensures name[|prefix| + 1..] == Upper(ReplaceSpaces(field))
      ensures ' ' !in prefix ==> ' ' !in name
    {
      var name := Upper(prefix + "_" + ReplaceSpaces(field));
      UpperAppend(prefix + "_", ReplaceSpaces(field));
      UpperAppend(prefix, "_");
      assert forall i :: 0 <= i < |name| ==> name[i] != ' ' || (i < |prefix| && prefix[i] == ' ');
      name
    }

    /**
     * Generic form of `BindInt`, `BindUint`, `BindFloat`, `BindBool`, `BindIP`, `BindIPNet`,
     * `BindTime` and `BindDuration`: only `parse` and `format` differ between them. Only
     * the first element of `def` is ever used.
     */
    method Bind<T>(field: string, env: Environ, dst: Cell<T>, def: seq<T>,
                   parse: string -> Option<T>, format: T -> string) returns (e: Env)
      modifies dst
      ensures fresh(e) && e.Name == DerivedName(field)
      ensures e.Value == RecordedValue(Lookup(env, e.Name), def, format)
      ensures dst.value == BoundValue(e.Value, def, parse, old(dst.value))
    {
      e := new Env(DerivedName(field));
      if e.Name in env {
        e.Value := env[e.Name];
      } else if |def| > 0 {
        e.Value := format(def[0]);
      }
      var parsed := parse(e.Value);
      if parsed.None? {
        if |def| > 0 {
          dst.value := def[0];
        }
        return;
      }
      dst.value := parsed.value;
    }

    /**
     * `BindString`: unlike the typed binders it writes the record value into the
     * destination unconditionally, so an unset variable with no default writes "".
     */
    method BindString(field: string, env: Environ, dst: Cell<string>, def: seq<string>) returns (e: Env)
      modifies dst
      ensures fresh(e) && e.Name == DerivedName(field)
      ensures e.Value == RecordedValue(Lookup(env, e.Name), def, Verbatim)
      ensures dst.value == e.Value
    {
      e := new Env(DerivedName(field));
      if e.Name in env {
        e.Value := env[e.Name];
      } else if |def| > 0 {
        e.Value := def[0];
      }
      dst.value := e.Value;
    }

    method BindInt(field: string, env: Environ, dst: Cell<int64>, def: seq<int64>) returns (e: Env)
      modifies dst
      ensures fresh(e) && e.Name == DerivedName(field)
      ensures e.Value == RecordedValue(Lookup(env, e.Name), def, FormatInt)
      ensures dst.value == BoundValue(e.Value, def, ParseInt, old(dst.value))
    {
      e := Bind(field, env, dst, def, ParseInt, FormatInt);
    }

    method BindUint(field: string, env: Environ, dst: Cell<uint64>, def: seq<uint64>) returns (e: Env)
      modifies dst
      ensures fresh(e) && e.Name == DerivedName(field)
      ensures e.Value == RecordedValue(Lookup(env, e.Name), def, FormatUint)
      ensures dst.value == BoundValue(e.Value, def, ParseUint, old(dst.value))
    {
      e := Bind(field, env, dst, def, ParseUint, FormatUint);
    }

    method BindBool(field: string, env: Environ, dst: Cell<bool>, def: seq<bool>) returns (e: Env)
      modifies dst
      ensures fresh(e) && e.Name == DerivedName(field)
      ensures e.Value == RecordedValue(Lookup(env, e.Name), def, FormatBool)
      ensures dst.value == BoundValue(e.Value, def, ParseBool, old(dst.value))
    {
      e := Bind(field, env, dst, def, ParseBool, FormatBool);
    }

    /** `BindFloat`, with `strconv.ParseFloat` and `strconv.FormatFloat(_, 'f', -1, 64)` given. */
    method BindFloat<F>(field: string, env: Environ, dst: Cell<F>, def: seq<F>,
                        parseFloat: string -> Option<F>, formatFloat: F -> string) returns (e: Env)
      modifies dst
      ensures fresh(e) && e.Name == DerivedName(field)
      ensures e.Value == RecordedValue(Lookup(env, e.Name), def, formatFloat)
      ensures dst.value == BoundValue(e.Value, def, parseFloat, old(dst.value))
    {
      e := Bind(field, env, dst, def, parseFloat, formatFloat);
    }

    /** `BindIP`, with `net.ParseIP` and `IP.String` given; the value is trimmed before parsing. */
    method BindIP<IP>(field: string, env: Environ, dst: Cell<IP>, def: seq<IP>,
                      parseIP: string -> Option<IP>, ipString: IP -> string) returns (e: Env)
      modifies dst
      ensures fresh(e) && e.Name == DerivedName(field)
      ensures e.Value == RecordedValue(Lookup(env, e.Name), def, ipString)
      ensures dst.value == BoundValue(e.Value, def, TrimThen(parseIP), old(dst.value))
    {
      e := Bind(field, env, dst, def, TrimThen(parseIP), ipString);
    }

    /**
     * `BindIPNet`, with the network part of `net.ParseCIDR` and `IPNet.String` given; the
     * value is trimmed before parsing.
     */
    method BindIPNet<Net>(field: string, env: Environ, dst: Cell<Net>, def: seq<Net>,
                          parseCIDR: string -> Option<Net>, netString: Net -> string) returns (e: Env)
      modifies dst
      ensures fresh(e) && e.Name == DerivedName(field)
      ensures e.Value == RecordedValue(Lookup(env, e.Name), def, netString)
      ensures dst.value == BoundValue(e.Value, def, TrimThen(parseCIDR), old(dst.value))
    {
      e := Bind(field, env, dst, def, TrimThen(parseCIDR), netString);
    }

    /**
     * `BindTime`, with `time.Parse(time.RFC3339Nano, _)` and `Time.String` given; the value
     * is trimmed before parsing. The two given functions need not be inverses.
     */
    method BindTime<Time>(field: string, env: Environ, dst: Cell<Time>, def: seq<Time>,
                          parseRFC3339Nano: string -> Option<Time>, timeString: Time -> string) returns (e: Env)
      modifies dst
      ensures fresh(e) && e.Name == DerivedName(field)
      ensures e.Value == RecordedValue(Lookup(env, e.Name), def, timeString)
      ensures dst.value == BoundValue(e.Value, def, TrimThen(parseRFC3339Nano), old(dst.value))
    {
      e := Bind(field, env, dst, def, TrimThen(parseRFC3339Nano), timeString);
    }

    /** `BindDuration`, with `time.ParseDuration` and `Duration.String` given; trimmed first. */
    method BindDuration<Duration>(field: string, env: Environ, dst: Cell<Duration>, def: seq<Duration>,
                                  parseDuration: string -> Option<Duration>,
                                  durationString: Duration -> string) returns (e: Env)
      modifies dst
      ensures fresh(e) && e.Name == DerivedName(field)
      ensures e.Value == RecordedValue(Lookup(env, e.Name), def, durationString)
      ensures dst.value == BoundValue(e.Value, def, TrimThen(parseDuration), old(dst.value))
    {
      e := Bind(field, env, dst, def, TrimThen(parseDuration), durationString);
    }

    /**
     * `BindFunc`: the record value is whatever `fn` returns for the raw value ("" when
     * unset) and the presence flag; the binder itself writes no destination.
     */
    method BindFunc(field: string, env: Environ, fn: (string, bool) -> string) returns (e: Env)
      ensures fresh(e) && e.Name == DerivedName(field)
      ensures e.Value == fn(Lookup(env, e.Name).GetOr(""), e.Name in env)
    {
      e := new Env(DerivedName(field));
      var val, ok := if e.Name in env then env[e.Name] else "", e.Name in env;
      e.Value := fn(val, ok);
    }
  }

  /** `NewNamespace`: spaces in the prefix become `_`, then it is upper-cased. */
  function NewNamespace(s: string): (ns: Namespace)
    ensures ns.Valid()
    ensures |ns.prefix| == |s|
    ensures forall i :: 0 <= i < |s| ==> ns.prefix[i] == UpperChar(if s[i] == ' ' then '_' else s[i])
  {
    var p := Upper(ReplaceSpaces(s));
    assert forall i :: 0 <= i < |p| ==> p[i] != ' ';
    UpperIdempotent(ReplaceSpaces(s));
    Namespace(p)
  }

  // Name derivation

  /** The derived name is the upper-cased prefix, `_`, and the upper-cased, space-free field. */
  lemma DerivedNameIsJoin(ns: Namespace, field: string)
    ensures ns.DerivedName(field) == Upper(ns.prefix) + "_" + Upper(ReplaceSpaces(field))
  {
  }

  /** Every name a namespace derives starts with its prefix and `_`. */
  lemma PrefixStartsEveryName(ns: Namespace, field: string)
    requires ns.Valid()
    ensures ns.DerivedName(field)[..|ns.prefix| + 1] == ns.prefix + "_"
  {
    var name := ns.DerivedName(field);
    forall i | 0 <= i < |ns.prefix|
      ensures name[i] == ns.prefix[i]
    {
      assert Upper(ns.prefix)[i] == UpperChar(ns.prefix[i]);
    }
  }

  /** In particular for every namespace that `NewNamespace` creates. */
  lemma NewNamespaceStartsEveryName(s: string, field: string)
    ensures var ns := NewNamespace(s);
      ns.DerivedName(field)[..|s| + 1] == ns.prefix + "_"
  {
    PrefixStartsEveryName(NewNamespace(s), field);
  }

  /** Equal prefixes and equal normalised fields give equal names. */
  lemma SamePartsSameName(n1: Namespace, n2: Namespace, f1: string, f2: string)
    requires Upper(n1.prefix) == Upper(n2.prefix)
    requires Upper(ReplaceSpaces(f1)) == Upper(ReplaceSpaces(f2))
    ensures n1.DerivedName(f1) == n2.DerivedName(f2)
  {
    DerivedNameIsJoin(n1, f1);
    DerivedNameIsJoin(n2, f2);
  }

  /** When the prefixes have the same length, the name determines both normalised parts. */
  lemma SameNameSameParts(n1: Namespace, n2: Namespace, f1: string, f2: string)
    requires |n1.prefix| == |n2.prefix|
    requires n1.DerivedName(f1) == n2.DerivedName(f2)
    ensures Upper(n1.prefix) == Upper(n2.prefix)
    ensures Upper(ReplaceSpaces(f1)) == Upper(ReplaceSpaces(f2))
  {
    var k := |n1.prefix|;
    var a, b := n1.DerivedName(f1), n2.DerivedName(f2);
    DerivedNameIsJoin(n1, f1);
    DerivedNameIsJoin(n2, f2);
    assert Upper(n1.prefix) == a[..k] == b[..k] == Upper(n2.prefix);
    assert Upper(ReplaceSpaces(f1)) == a[k + 1..] == b[k + 1..] == Upper(ReplaceSpaces(f2));
  }

  /** Without equal prefix lengths the name does not determine its parts: `_` joins both. */
  lemma NamesCanCollide()
    ensures NewNamespace("a b").DerivedName("c") == NewNamespace("a").DerivedName("b c") == "A_B_C"
  {
    CollidingPrefixes();
    CollidingNames();
  }

  lemma CollidingPrefixes()
    ensures NewNamespace("a b") == Namespace("A_B")
    ensures NewNamespace("a") == Namespace("A")
  {
    var p1, p2 := NewNamespace("a b").prefix, NewNamespace("a").prefix;
    assert p1[0] == 'A' && p1[1] == '_' && p1[2] == 'B';
    assert p2[0] == 'A';
  }

  lemma CollidingNames()
    ensures Namespace("A_B").DerivedName("c") == "A_B_C"
    ensures Namespace("A").DerivedName("b c") == "A_B_C"
  {
    var a, b := Namespace("A_B").DerivedName("c"), Namespace("A").DerivedName("b c");
    assert a[0] == 'A' && a[1] == '_' && a[2] == 'B' && a[3] == '_' && a[4] == 'C';
    assert b[0] == 'A' && b[1] == '_' && b[2] == 'B' && b[3] == '_' && b[4] == 'C';
  }

  // The binding protocol, for any parser and formatter

  /** A set variable is recorded exactly as found, even when it will not parse. */
  lemma SetVariableRecordedRaw<T>(env: Environ, name: string, def: seq<T>, format: T -> string)
    requires name in env
    ensures RecordedValue(Lookup(env, name), def, format) == env[name]
  {
  }

  /** An unset variable records the formatted first default, or "" without one. */
  lemma UnsetVariableRecordsDefault<T>(env: Environ, name: string, def: seq<T>, format: T -> string)
    requires name !in env
    ensures |def| > 0 ==> RecordedValue(Lookup(env, name), def, format) == format(def[0])
    ensures |def| == 0 ==> RecordedValue(Lookup(env, name), def, format) == ""
  {
  }

  /**
   * An unset variable with a default binds that default exactly when its formatted form either
   * fails to parse (the fallback) or parses back to it (a round trip).
   */
  lemma UnsetVariableBindsDefault<T>(def: seq<T>, parse: string -> Option<T>, format: T -> string, current: T)
    requires |def| > 0
    ensures BoundValue(RecordedValue(None, def, format), def, parse, current) == def[0] <==>
            parse(format(def[0])) == None || parse(format(def[0])) == Some(def[0])
  {
  }

  /** A value that does not parse binds the first default, or leaves the destination alone. */
  lemma MalformedValueFallsBack<T>(v: string, def: seq<T>, parse: string -> Option<T>, current: T)
    requires parse(v) == None
    ensures |def| > 0 ==> BoundValue(v, def, parse, current) == def[0]
    ensures |def| == 0 ==> BoundValue(v, def, parse, current) == current
  {
  }

  /** Defaults after the first are never looked at. */
  lemma OnlyFirstDefaultCounts<T>(raw: Option<string>, d1: seq<T>, d2: seq<T>, parse: string -> Option<T>,
                                   format: T -> string, current: T)
    requires |d1| > 0 && |d2| > 0 && d1[0] == d2[0]
    ensures RecordedValue(raw, d1, format) == RecordedValue(raw, d2, format)
    ensures BoundValue(RecordedValue(raw, d1, format), d1, parse, current)
         == BoundValue(RecordedValue(raw, d2, format), d2, parse, current)
  {
  }

  /** A trimming binder treats a value padded with white space as the value itself. */
  lemma TrimmingBinderIgnoresPadding<T>(pre: string, v: string, post: string, def: seq<T>,
                                        parse: string -> Option<T>, current: T)
    requires AllSpace(pre) && AllSpace(post)
    ensures BoundValue(pre + v + post, def, TrimThen(parse), current) == BoundValue(v, def, TrimThen(parse), current)
  {
    TrimSpaceIgnoresPadding(pre, v, post);
  }

  // The typed binders

  /** Unset and without a default, the integer and boolean binders leave the destination alone. */
  lemma TypedUnsetNoDefaultKeeps(i: int64, u: uint64, b: bool)
    ensures BoundValue(RecordedValue<int64>(None, [], FormatInt), [], ParseInt, i) == i
    ensures BoundValue(RecordedValue<uint64>(None, [], FormatUint), [], ParseUint, u) == u
    ensures BoundValue(RecordedValue(None, [], FormatBool), [], ParseBool, b) == b
  {
    assert TrimSpace("") == "";
  }

  /** `BindInt` with the variable unset binds its default, through format and parse. */
  lemma IntUnsetBindsDefault(def: seq<int64>, current: int64)
    requires |def| > 0
    ensures RecordedValue(None, def, FormatInt) == FormatInt(def[0])
    ensures BoundValue(RecordedValue(None, def, FormatInt), def, ParseInt, current) == def[0]
  {
    IntRoundTrip(def[0]);
  }

  lemma UintUnsetBindsDefault(def: seq<uint64>, current: uint64)
    requires |def| > 0
    ensures RecordedValue(None, def, FormatUint) == FormatUint(def[0])
    ensures BoundValue(RecordedValue(None, def, FormatUint), def, ParseUint, current) == def[0]
  {
    UintRoundTrip(def[0]);
  }

  /** `FormatBool` and the switch of `BindBool` are inverses. */
  lemma BoolRoundTrip(b: bool)
    ensures ParseBool(FormatBool(b)) == Some(b)
  {
    var s := FormatBool(b);
    assert TrimLeft(s) == s;
    assert TrimRight(s) == s;
    assert Lower(s) == s;
  }

  lemma BoolUnsetBindsDefault(def: seq<bool>, current: bool)
    requires |def| > 0
    ensures RecordedValue(None, def, FormatBool) == FormatBool(def[0])
    ensures BoundValue(RecordedValue(None, def, FormatBool), def, ParseBool, current) == def[0]
  {
    BoolRoundTrip(def[0]);
  }

  /** `BindInt` does not trim: " 5" and "5_0" fall back, while "5" binds 5. */
  lemma IntMalformedFallsBack(def: seq<int64>, current: int64)
    ensures ParseInt("5") == Some(5)
    ensures BoundValue(" 5", def, ParseInt, current) == (if |def| > 0 then def[0] else current)
    ensures BoundValue("5_0", def, ParseInt, current) == (if |def| > 0 then def[0] else current)
  {
    IntRejectsSpace(" 5", 0);
    IntRejectsUnderscore("5_0", 1);
    assert DigitsValue("5") == 5 by { assert "5"[..0] == []; }
  }

  /** `BindUint` rejects any sign, so a signed value falls back. */
  lemma UintSignFallsBack(v: string, def: seq<uint64>, current: uint64)
    requires |v| > 0 && (v[0] == '+' || v[0] == '-')
    ensures BoundValue(v, def, ParseUint, current) == (if |def| > 0 then def[0] else current)
  {
    UintRejectsSign(v);
  }

  /** White space around a boolean never matters. */
  lemma BoolIgnoresPadding(pre: string, s: string, post: string)
    requires AllSpace(pre) && AllSpace(post)
    ensures ParseBool(pre + s + post) == ParseBool(s)
  {
    TrimSpaceIgnoresPadding(pre, s, post);
  }

  /** Nor does case: an upper-cased value binds the same. */
  lemma BoolIgnoresCase(s: string)
    ensures ParseBool(Upper(s)) == ParseBool(s)
  {
    UpperTrimSpace(s);
    LowerUpper(TrimSpace(s));
  }

  lemma UpperTrimSpace(s: string)
    ensures TrimSpace(Upper(s)) == Upper(TrimSpace(s))
  {
    UpperTrimLeft(s);
    UpperTrimRight(TrimLeft(s));
  }

  lemma UpperCharKeepsSpace(c: char)
    ensures IsSpace(UpperChar(c)) == IsSpace(c)
  {
  }

  lemma {:induction false} UpperTrimLeft(s: string)
    ensures TrimLeft(Upper(s)) == Upper(TrimLeft(s))
  {
    var u := Upper(s);
    if s != [] {
      UpperCharKeepsSpace(s[0]);
      assert u[0] == UpperChar(s[0]);
      if IsSpace(s[0]) {
        calc {
          TrimLeft(u);
          TrimLeft(u[1..]);
          { assert u[1..] == Upper(s[1..]); }
          TrimLeft(Upper(s[1..]));
          { UpperTrimLeft(s[1..]); }
          Upper(TrimLeft(s[1..]));
          Upper(TrimLeft(s));
        }
      } else {
        assert TrimLeft(u) == u;
        assert TrimLeft(s) == s;
      }
    }
  }

  lemma {:induction false} UpperTrimRight(s: string)
    ensures TrimRight(Upper(s)) == Upper(TrimRight(s))
  {
    var u := Upper(s);
    if s != [] {
      var n := |s| - 1;
      UpperCharKeepsSpace(s[n]);
      assert u[n] == UpperChar(s[n]);
      if IsSpace(s[n]) {
        calc {
          TrimRight(u);
          TrimRight(u[..n]);
          { assert u[..n] == Upper(s[..n]); }
          TrimRight(Upper(s[..n]));
          { UpperTrimRight(s[..n]); }
          Upper(TrimRight(s[..n]));
          Upper(TrimRight(s));
        }
      } else {
        assert TrimRight(u) == u;
        assert TrimRight(s) == s;
      }
    }
  }

  /** "yes" is not a boolean token: with default `true` the destination ends `true`. */
  lemma BoolYesFallsBack(current: bool)
    ensures ParseBool("yes") == None
    ensures BoundValue("yes", [true], ParseBool, current) == true
    ensures BoundValue("yes", [], ParseBool, current) == current
  {
    YesIsNoToken("yes");
  }

  lemma YesIsNoToken(s: string)
    requires s == "yes"
    ensures ParseBool(s) == None
  {
    assert TrimLeft(s) == s;
    assert TrimRight(s) == s;
    assert Lower(s)[0] == 'y';
  }

  /** `BindString` binds the same as a typed binder whose parser always succeeds. */
  lemma StringBinderNeverFallsBack(raw: Option<string>, def: seq<string>, current: string)
    ensures var v := RecordedValue(raw, def, Verbatim);
      BoundValue(v, def, s => Some(s), current) == v
    ensures raw.None? && |def| > 0 ==> RecordedValue(raw, def, Verbatim) == def[0]
  {
  }

  // Scenarios

  /** Prefix "APP" and field "max retries" give the variable `APP_MAX_RETRIES`. */
  lemma MaxRetriesName()
    ensures NewNamespace("APP").DerivedName("max retries") == "APP_MAX_RETRIES"
  {
    AppPrefix();
    MaxRetriesJoin("APP", "max retries");
  }

  lemma AppPrefix()
    ensures NewNamespace("APP") == Namespace("APP")
  {
    var p := NewNamespace("APP").prefix;
    assert p[0] == 'A' && p[1] == 'P' && p[2] == 'P';
  }

  lemma MaxRetriesJoin(prefix: string, field: string)
    requires prefix == "APP" && field == "max retries"
    ensures Namespace(prefix).DerivedName(field) == "APP_MAX_RETRIES"
  {
    MaxRetriesReplaced(field);
    MaxRetriesUpper(ReplaceSpaces(field));
    AppUpper(prefix);
    DerivedNameIsJoin(Namespace(prefix), field);
  }

  lemma MaxRetriesReplaced(field: string)
    requires field == "max retries"
    ensures ReplaceSpaces(field) == "max_retries"
  {
    var r := ReplaceSpaces(field);
    assert r[0] == 'm' && r[1] == 'a' && r[2] == 'x' && r[3] == '_' && r[4] == 'r' && r[5] == 'e';
    assert r[6] == 't' && r[7] == 'r' && r[8] == 'i' && r[9] == 'e' && r[10] == 's';
  }

  lemma MaxRetriesUpper(r: string)
    requires r == "max_retries"
    ensures Upper(r) == "MAX_RETRIES"
  {
    var u := Upper(r);
    assert u[0] == 'M' && u[1] == 'A' && u[2] == 'X' && u[3] == '_' && u[4] == 'R' && u[5] == 'E';
    assert u[6] == 'T' && u[7] == 'R' && u[8] == 'I' && u[9] == 'E' && u[10] == 'S';
  }

  lemma AppUpper(p: string)
    requires p == "APP"
    ensures Upper(p) == "APP"
  {
    assert Upper(p)[0] == 'A' && Upper(p)[1] == 'P' && Upper(p)[2] == 'P';
  }

  /** With prefix "APP", `APP_MAX_RETRIES="5"` binds 5 and records "5". */
  lemma MaxRetriesSetScenario(prefix: string, field: string, current: int64)
    requires prefix == "APP" && field == "max retries"
    ensures var name := NewNamespace(prefix).DerivedName(field);
      var v := RecordedValue<int64>(Lookup(map[name := "5"], name), [], FormatInt);
      name == "APP_MAX_RETRIES" && v == "5" && BoundValue(v, [], ParseInt, current) == 5
  {
    MaxRetriesName();
    IntMalformedFallsBack([], current);
  }

  /** With prefix "APP", `APP_MAX_RETRIES` unset with default 3 binds 3 and records "3". */
  lemma MaxRetriesUnsetScenario(prefix: string, field: string, current: int64)
    requires prefix == "APP" && field == "max retries"
    ensures var name := NewNamespace(prefix).DerivedName(field);
      var v := RecordedValue<int64>(Lookup(map[], name), [3], FormatInt);
      name == "APP_MAX_RETRIES" && v == "3" && BoundValue(v, [3], ParseInt, current) == 3
  {
    MaxRetriesName();
    UnsetWithDefaultThree(current);
  }

  lemma UnsetWithDefaultThree(current: int64)
    ensures var v := RecordedValue<int64>(None, [3], FormatInt);
      v == "3" && BoundValue(v, [3], ParseInt, current) == 3
  {
    assert FormatInt(3) == "3";
    IntUnsetBindsDefault([3], current);
  }

  // A caller

  /** What a caller can conclude from the binders' contracts alone. */
  method BindScenarios(ns: Namespace, field: string, env: Environ)
  {
    var name := ns.DerivedName(field);
    var unset := env - {name};
    assert Lookup(unset, name) == None;

    var s := new Cell("keep");
    var e := ns.BindString(field, unset, s, []);
    assert e.Value == "" && s.value == "";

    var i := new Cell(7 as int64);
    e := ns.BindInt(field, unset, i, []);
    TypedUnsetNoDefaultKeeps(7, 0, false);
    assert i.value == 7;
    e := ns.BindInt(field, unset, i, [3, 4]);
    IntUnsetBindsDefault([3, 4], 7);
    assert i.value == 3 && e.Value == FormatInt(3);
    e := ns.BindInt(field, unset[name := "5"], i, [3, 4]);
    IntMalformedFallsBack([3, 4], 3);
    assert i.value == 5 && e.Value == "5";

    var b := new Cell(false);
    e := ns.BindBool(field, unset[name := "yes"], b, [true]);
    BoolYesFallsBack(false);
    assert b.value && e.Value == "yes";

    e := ns.BindFunc(field, unset, (v, ok) => if ok then v else "generated");
    assert e.Value == "generated" && e.Name == name;
  }
}
