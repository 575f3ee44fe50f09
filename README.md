# envutil: typed environment-variable binding, modelled in Dafny

The Go package `envutil` binds environment variables into typed Go variables. A
`Namespace` holds a normalised prefix. Each `Bind*` operation derives a variable name from
the prefix and a field name, looks the variable up, parses the string, falls back to an
optional default, writes the destination pointer and returns an `Env` record
`{Name, Value}`. `Env.String` renders that record as `NAME=value`.

This project models the whole package:

- `ascii.dfy` (module `Ascii`): the `strings` functions the binder calls (`ToUpper`,
  `ToLower`, `TrimSpace`, `ReplaceAll(s, " ", "_")`), over ASCII.
- `strconv.dfy` (module `Strconv`): `ParseInt`/`FormatInt`, `ParseUint`/`FormatUint` in base
  10 with the 64-bit ranges, `FormatBool`, and `Quote`. `Unquote` is added as `Quote`'s inverse.
- `env.dfy` (module `EnvRecord`): the `Env` record as a class with `Name` and `Value`
  fields, which the binders update in place, and its `String` rendering.
- `namespace.dfy` (module `Namespaces`): the `Namespace` value with its name derivation,
  one generic binder method `Bind` and all the `Bind*` operations, specified with two pure
  functions, and lemmas about them. The two functions are `RecordedValue` (what the record
  keeps) and `BoundValue` (what the destination holds afterwards).

Some Go details and how they are modelled:

- The process environment (`os.LookupEnv`) is a `map<string, string>` parameter.
- A Go destination pointer `*ptr` is a `Cell<T>` object whose `value` field the binder may
  write, so "destination unchanged" can be stated with `old`.
- The variadic default `def ...T` is a `seq<T>`. Only `def[0]` is ever read.
- `strconv` errors become `None` of an `Option`.
- Go's `int64` and `uint64` are subset types of `int`. Out-of-range input is a parse error, as
  in Go.
- The library parsers and formatters of the float, IP, CIDR, timestamp and duration binders
  are parameters of those methods. The trimming that the binders apply before the IP, CIDR,
  timestamp and duration parsers is modelled (`TrimThen`).
- `BindScenarios` is a caller that uses only the method contracts. It binds `BindString` on
  an unset variable (the destination becomes `""`). It binds `BindInt` unset without a
  default (keeps 7), unset with default 3 (binds 3) and set to `"5"` (binds 5). It binds
  `BindBool` on `"yes"` with default `true` (rejected, so `true` is bound). It binds
  `BindFunc` with a function that produces the token `"generated"` when the variable is unset.

Behaviours of the code that differ between binders or are easy to miss:

- `BindString` writes `e.Value` into the destination unconditionally
  (`envutil/namespace.go:34`). When the variable is unset and there is no default, it
  therefore writes `""`; it does not keep the old value.
- The typed binders do not return early when the variable is unset and there is no default.
  They parse `""`. Every concrete parser rejects `""`, so the destination is kept
  (`TypedUnsetNoDefaultKeeps`). For a parameter parser this holds whenever it rejects
  `""` (`MalformedValueFallsBack`).
- Derived names are not injective in (prefix, field), because `_` also joins the parts:
  `NewNamespace("a b")` with `"c"` and `NewNamespace("a")` with `"b c"` both give `A_B_C`
  (`NamesCanCollide`). Names whose prefixes have equal length determine their parts
  (`SameNameSameParts`); otherwise they can collide (`NamesCanCollide`).
- An unset variable with a default binds that default exactly when the formatted default either
  fails to parse or parses back to the default (`UnsetVariableBindsDefault`). This holds for
  the integer and boolean binders by their round trips. The timestamp binder formats with
  `Time.String` but parses RFC 3339, so it relies on the fallback path.

## Model

| member | source | states |
|---|---|---|
| `Namespaces.NewNamespace` | envutil/namespace.go:241-243 | the prefix has the input's length; each character is the input's, with space turned into `_`, upper-cased; the result is a valid namespace (no spaces, upper-casing changes nothing) |
| `Namespaces.Lookup` | envutil/namespace.go:24 | finds a value exactly when the variable is set, and then it is the environment's value |
| `Namespaces.RecordedValue` | envutil/namespace.go:41-48 | the record keeps the raw string when set; unset, the formatted first default, or `""` without a default |
| `Namespaces.BoundValue` | envutil/namespace.go:51-59 | the destination gets the parsed value when parsing succeeds; otherwise the first default, or its old value without a default |
| `Namespaces.TrimThen` | envutil/namespace.go:149 | the parser applied to any string gives what the underlying parser gives for the trimmed string |
| `Namespaces.Namespace.DerivedName` | envutil/namespace.go:16-19 | the name is prefix, `_`, field, position by position upper-cased, with the field's spaces turned into `_`; it always contains `_`, and it has no space when the prefix has none |
| `Namespaces.DerivedNameIsJoin` | envutil/namespace.go:17-18 | the name equals `Upper(prefix) + "_" + Upper(ReplaceAll(field, " ", "_"))` |
| `Namespaces.PrefixStartsEveryName` | envutil/namespace.go:16-19 | for a valid namespace every derived name starts with `prefix + "_"` |
| `Namespaces.NewNamespaceStartsEveryName` | envutil/namespace.go:241-243 | every name derived from a `NewNamespace` result starts with its prefix and `_` |
| `Namespaces.SamePartsSameName` | envutil/namespace.go:16-19 | equal upper-cased prefixes and equal normalised fields give equal names |
| `Namespaces.SameNameSameParts` | envutil/namespace.go:16-19 | with prefixes of equal length, equal names imply equal upper-cased prefixes and equal normalised fields |
| `Namespaces.NamesCanCollide` | envutil/namespace.go:16-19 | the namespaces `"a b"` and `"a"` with fields `"c"` and `"b c"` both derive `A_B_C` |
| `Namespaces.MaxRetriesName` | envutil/namespace.go:16-19 | prefix `APP` and field `max retries` derive `APP_MAX_RETRIES` |
| `Namespaces.Namespace.Bind` | envutil/namespace.go:39-60 | the shared protocol: a fresh record with the derived name; its value is the raw string if set, else the formatted first default, else `""`; the destination gets the parsed value, else the first default, else keeps its old value |
| `Namespaces.Namespace.BindString` | envutil/namespace.go:22-36 | record value is the raw string, else the first default, else `""`; the destination always ends equal to the record value |
| `Namespaces.Namespace.BindInt` | envutil/namespace.go:39-60 | the protocol with `ParseInt` and `FormatInt` |
| `Namespaces.Namespace.BindUint` | envutil/namespace.go:63-84 | the protocol with `ParseUint` and `FormatUint` |
| `Namespaces.Namespace.BindFloat` | envutil/namespace.go:87-108 | the protocol with the given float parser and formatter |
| `Namespaces.Namespace.BindBool` | envutil/namespace.go:111-134 | the protocol with the four-token switch and `FormatBool` |
| `Namespaces.Namespace.BindIP` | envutil/namespace.go:137-158 | the protocol with the given IP parser applied to the trimmed value, and the given formatter |
| `Namespaces.Namespace.BindIPNet` | envutil/namespace.go:161-182 | the protocol with the given CIDR parser applied to the trimmed value, and the given formatter |
| `Namespaces.Namespace.BindTime` | envutil/namespace.go:185-206 | the protocol with the given RFC 3339 parser applied to the trimmed value, and the given (not inverse) formatter |
| `Namespaces.Namespace.BindDuration` | envutil/namespace.go:209-230 | the protocol with the given duration parser applied to the trimmed value, and the given formatter |
| `Namespaces.Namespace.BindFunc` | envutil/namespace.go:233-238 | record value is `fn(raw or "", set?)`; no destination is written |
| `Namespaces.SetVariableRecordedRaw` | envutil/namespace.go:41-44 | a set variable is recorded exactly as found, untrimmed, whatever the parser later says |
| `Namespaces.UnsetVariableRecordsDefault` | envutil/namespace.go:46-48 | an unset variable records the formatted first default, or `""` without a default |
| `Namespaces.UnsetVariableBindsDefault` | envutil/namespace.go:46-58 | for any parser: unset plus default binds the default exactly when its formatted form fails to parse or parses back to it |
| `Namespaces.MalformedValueFallsBack` | envutil/namespace.go:51-57 | for any parser: a value that does not parse binds the first default, or keeps the old destination |
| `Namespaces.OnlyFirstDefaultCounts` | envutil/namespace.go:46-55 | two default lists with the same first element give the same record and the same destination |
| `Namespaces.TrimmingBinderIgnoresPadding` | envutil/namespace.go:149 | a binder that trims before parsing binds the same for a value with white space around it |
| `Namespaces.TypedUnsetNoDefaultKeeps` | envutil/namespace.go:50-57 | unset with no default, the int, uint and bool binders keep the destination |
| `Namespaces.IntUnsetBindsDefault` | envutil/namespace.go:46-58 | unset with a default, `BindInt` records `FormatInt(def[0])` and binds `def[0]` |
| `Namespaces.UintUnsetBindsDefault` | envutil/namespace.go:70-82 | unset with a default, `BindUint` records `FormatUint(def[0])` and binds `def[0]` |
| `Namespaces.BoolUnsetBindsDefault` | envutil/namespace.go:118-131 | unset with a default, `BindBool` records `FormatBool(def[0])` and binds `def[0]` |
| `Namespaces.BoolRoundTrip` | envutil/namespace.go:119-127 | the switch of `BindBool` reads `FormatBool(b)` back as `b` |
| `Namespaces.IntMalformedFallsBack` | envutil/namespace.go:51-57 | `"5"` parses to 5, while `" 5"` and `"5_0"` fall back to the first default or keep the destination |
| `Namespaces.UintSignFallsBack` | envutil/namespace.go:75-81 | any value starting with `+` or `-` falls back in `BindUint` |
| `Namespaces.ParseBool` | envutil/namespace.go:123-132 | `Some(true)` exactly for trimmed, lower-cased `"1"`/`"true"`, `Some(false)` exactly for `"0"`/`"false"`, `None` for everything else |
| `Namespaces.BoolIgnoresPadding` | envutil/namespace.go:123 | white space around a boolean value does not change what binds |
| `Namespaces.BoolIgnoresCase` | envutil/namespace.go:123 | upper-casing a boolean value does not change what binds |
| `Namespaces.BoolYesFallsBack` | envutil/namespace.go:123-132 | `"yes"` is rejected: with default `true` the destination is `true`, without a default it is kept |
| `Namespaces.StringBinderNeverFallsBack` | envutil/namespace.go:24-34 | `BindString` binds like the protocol with the verbatim format and a parser that always succeeds: the destination is the record value, which is the first default when the variable is unset |
| `Namespaces.MaxRetriesSetScenario` | envutil/namespace.go:41-58 | prefix `APP` and field `max retries` derive `APP_MAX_RETRIES`; set to `"5"`, it records `"5"` and binds 5 |
| `Namespaces.MaxRetriesUnsetScenario` | envutil/namespace.go:46-58 | prefix `APP` and field `max retries` derive `APP_MAX_RETRIES`; unset with default 3, it records `"3"` and binds 3 |
| `EnvRecord.Env.constructor` | envutil/namespace.go:18 | a new record carries the given name and an empty value |
| `EnvRecord.Env.String` | envutil/env.go:14-19 | output starts with `Name + "="`; without `"` in the value it is `Name=Value`; with one it is `Name=` plus `Quote(Value)`, a part that starts and ends with `"` and unquotes to `Value`; as a function it changes neither field |
| `Strconv.ParseInt` | envutil/namespace.go:51 | succeeds exactly when what follows one optional leading `+` or `-` is a non-empty string of digits whose value lies in the `int64` range for that sign; the result is that value, negated after `-` |
| `Strconv.IntNonCanonicalForms` | envutil/namespace.go:51 | `"+5"` parses to 5, `"007"` to 7 and `"-0"` to 0; `"+"`, `"-"` and `""` fail |
| `Strconv.FormatInt` | envutil/namespace.go:47 | non-empty; a leading `-` exactly for negative numbers and never a `+`; the rest is digits with no leading zero unless the whole string is `"0"` |
| `Strconv.ParseUint` | envutil/namespace.go:75 | succeeds exactly for a non-empty string of digits whose value is at most `MaxUint64`, with that value |
| `Strconv.FormatUint` | envutil/namespace.go:71 | non-empty digits that denote the number, with no leading zero unless the string is `"0"` |
| `Strconv.FormatBool` | envutil/namespace.go:119 | `"true"` exactly for `true`, otherwise `"false"` |
| `Strconv.FormatNat` | envutil/namespace.go:47 | the decimal form is non-empty, all digits, with no leading zero, and denotes the number |
| `Strconv.IntRoundTrip` | envutil/namespace.go:47-51 | `ParseInt(FormatInt(x)) == Some(x)` for every `int64`, the minimum included |
| `Strconv.UintRoundTrip` | envutil/namespace.go:71-75 | `ParseUint(FormatUint(n)) == Some(n)` for every `uint64` |
| `Strconv.UintCanonical` | envutil/namespace.go:71-75 | a parsable string without a leading zero is exactly the formatted form of what it parses to |
| `Strconv.IntRejectsSpace` | envutil/namespace.go:51 | a space anywhere makes `ParseInt` fail: there is no trimming |
| `Strconv.UintRejectsSign` | envutil/namespace.go:75 | a leading `+` or `-` makes `ParseUint` fail |
| `Strconv.IntRejectsUnderscore` | envutil/namespace.go:51 | an underscore anywhere makes both base-10 parsers fail |
| `Strconv.IntRangeLimits` | envutil/namespace.go:51 | one past `MaxInt64`, one below `MinInt64` and one past `MaxUint64` are errors |
| `Strconv.EscapeChar` | envutil/env.go:16 | each escaped character is itself or starts with a backslash, and never is a bare `"` |
| `Strconv.Quote` | envutil/env.go:16 | the quoted form starts and ends with `"` |
| `Strconv.QuoteRoundTrip` | envutil/env.go:16 | `Unquote(Quote(s)) == Some(s)` |
| `Ascii.Upper` | envutil/namespace.go:18 | same length; each ASCII lower-case letter upper-cased, every other character kept |
| `Ascii.Lower` | envutil/namespace.go:123 | same length; each ASCII upper-case letter lower-cased, every other character kept |
| `Ascii.ReplaceSpaces` | envutil/namespace.go:17 | same length, no space left, each space replaced by `_` and nothing else changed |
| `Ascii.TrimSpace` | envutil/namespace.go:123 | the result is a slice `s[i..j]` of the input with only white space before `i` and after `j`, and it neither starts nor ends with white space |
| `Ascii.TrimSpaceIgnoresPadding` | envutil/namespace.go:123 | white space added at either end does not change the trimmed string |
| `Ascii.UpperIdempotent` | envutil/namespace.go:241-243 | upper-casing twice is upper-casing once |

## Left out

- The process environment: `os.LookupEnv` is replaced by an environment map argument. Changes to the environment while binding are out of scope.
- Float parsing and formatting (`strconv.ParseFloat`, `strconv.FormatFloat`): floating point. `BindFloat` takes them as parameters.
- `net.ParseIP`, `net.ParseCIDR`, `IP.String`, `IPNet.String`: library parsers for the IPv6 text form (section 2.2 of RFC 4291) and CIDR notation (section 3.1 of RFC 4632). They are parameters of `BindIP` and `BindIPNet`. For `ParseCIDR` the parameter returns the network part, which is what `BindIPNet` stores.
- `time.Parse(time.RFC3339Nano, _)` (section 5.6 of RFC 3339), `Time.String`, `time.ParseDuration`, `Duration.String`: library code, parameters of `BindTime` and `BindDuration`. No round trip is claimed for them.
- `EnvBindFunc` side effects: in Go, `fn` may write a destination of its own. Here it is a pure function, so `BindFunc` states only the record value.
- Ascii.Upper: models `strings.ToUpper` on ASCII only; other characters pass through unchanged, because Unicode case mapping is out of scope.
- Ascii.Lower: models `strings.ToLower` on ASCII only, for the same reason.
- Ascii.TrimSpace: trims ASCII white space only; Unicode white space such as U+0085 and U+00A0 is kept, because Unicode classes are out of scope.
- Go strings are bytes; invalid UTF-8 is not modelled, since Dafny strings are sequences of Unicode characters.
- Strconv.Quote: models `strconv.Quote` for ASCII only. Characters at or above U+0080 are copied as they are, whereas Go escapes the non-printable ones with `\u`/`\U` and invalid bytes with `\x`.
- Sharing and aliasing of the objects behind Go pointers (`net.IP` is a slice) are not modelled. A `Cell` is written as a whole.
