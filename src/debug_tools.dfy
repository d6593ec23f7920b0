/** The trace switch and the log-value summaries (backend/app/core/debug_tools.py). */
module DebugTools {
  import opened Wrappers
  import opened Text
  import PyNum
  import Slices

  /** `_TRUTHY`. */
  const Truthy: set<string> := {"1", "true", "yes", "y", "on"}

  /** `trace_enabled()`, with the `BI_TRACE` environment value and
      `settings.debug` as parameters. */
  function TraceEnabled(env: Option<string>, debug: bool): (r: bool)
    ensures env.Some? ==> (r <==> Lower(Strip(env.value)) in Truthy)
    ensures env.None? ==> r == debug
  {
    if env.Some? then Lower(Strip(env.value)) in Truthy else debug
  }

  /** A set variable wins over `settings.debug`, whitespace around its value
      does not matter, and an unset one defers to `settings.debug`. */
  lemma TraceEnabledPadded(pre: string, v: string, post: string, debug: bool)
    requires forall i :: 0 <= i < |pre| ==> IsSpace(pre[i])
    requires forall i :: 0 <= i < |post| ==> IsSpace(post[i])
    requires v != [] && !IsSpace(v[0]) && !IsSpace(v[|v| - 1])
    ensures TraceEnabled(Some(pre + v + post), debug) == (Lower(v) in Truthy)
    ensures TraceEnabled(None, debug) == debug
  {
    StripPadded(pre, v, post);
  }

  /** `_truncate(s, n)`. */
  function Truncate(s: Option<string>, n: int): string {
    if s.None? then ""
    else if |s.value| <= n then s.value
    else Slices.Prefix(s.value, n) + "...(len=" + NatToString(|s.value|) + ")"
  }

  /** `None` becomes "", a string of at most `n` characters is kept. */
  lemma TruncateShort(s: Option<string>, n: int)
    ensures s.None? ==> Truncate(s, n) == ""
    ensures s.Some? && |s.value| <= n ==> Truncate(s, n) == s.value
  {
  }

  /** A longer string keeps its first `n` characters and is followed by a
      marker from which its full length can be read back. */
  lemma TruncateLong(s: string, n: nat)
    requires |s| > n
    ensures var r := Truncate(Some(s), n);
      && r[..n] == s[..n]
      && r[n..n + 8] == "...(len="
      && r[|r| - 1] == ')'
      && PyNum.IntOfString(r[n + 8..|r| - 1]) == Some(|s|)
  {
    var digits := NatToString(|s|);
    var head, marker := s[..n], "...(len=";
    var r := Truncate(Some(s), n);
    assert r == head + marker + digits + ")";
    Pieces(head, marker, digits, ")");
    PyNum.IntOfStringRoundTrip(|s|);
  }

  lemma Pieces(a: string, b: string, c: string, d: string)
    ensures var r := a + b + c + d;
      && r[..|a|] == a && r[|a|..|a| + |b|] == b
      && r[|a| + |b|..|r| - |d|] == c && r[|r| - |d|..] == d
  {
  }

  /** The kinds of value `brief` tells apart; `VOther` carries `str(value)`.
      An array carries what `float(arr.min())`, `float(arr.max())` and
      `isnan(arr).any()` give, `None` where that call raises (an empty array,
      a dtype without an order or without NaN). */
  datatype Value =
    | VNone
    | VArray(shape: seq<nat>, dtype: string, minimum: Option<real>, maximum: Option<real>, hasNan: Option<bool>)
    | VBytes(length: nat)
    | VStr(s: string)
    | VDict(keys: seq<string>)
    | VList(length: nat)
    | VTuple(length: nat)
    | VSet(length: nat)
    | VModel(className: string)
    | VOther(text: string)

  /** What `brief` returns. */
  datatype Summary =
    | SNone
    | SArray(shape: seq<nat>, dtype: string, min: Option<real>, max: Option<real>, hasNan: Option<bool>)
    | SBytes(bytesLen: nat)
    | SStr(strLen: nat, prefix: string)
    | SDict(dictKeys: seq<string>, dictLen: nat)
    | SLen(len: nat)
    | SModel(pydantic: string)
    | SText(text: string)

  /** `brief(value)`: one summary kind per value kind. */
  function Brief(v: Value): (r: Summary)
    ensures r.SNone? <==> v.VNone?
    ensures r.SArray? <==> v.VArray?
    ensures r.SBytes? <==> v.VBytes?
    ensures r.SStr? <==> v.VStr?
    ensures r.SDict? <==> v.VDict?
    ensures r.SLen? <==> v.VList? || v.VTuple? || v.VSet?
  {
    match v
    case VNone => SNone
    case VArray(shape, dtype, lo, hi, nan) => SArray(shape, dtype, lo, hi, nan)
    case VBytes(n) => SBytes(n)
    case VStr(s) => SStr(|s|, Truncate(Some(s), 80))
    case VDict(keys) => SDict(if |keys| <= 30 then keys else keys[..30], |keys|)
    case VList(n) => SLen(n)
    case VTuple(n) => SLen(n)
    case VSet(n) => SLen(n)
    case VModel(name) => SModel(name)
    case VOther(text) => SText(Truncate(Some(text), 160))
  }

  /** Sizes are reported, never contents: a string keeps its length and at
      most its first 80 characters (plus the length marker), a dict at most its
      first 30 keys, and containers only their length. */
  lemma BriefSummaries(v: Value)
    ensures v.VNone? ==> Brief(v) == SNone
    ensures v.VArray? ==> Brief(v) == SArray(v.shape, v.dtype, v.minimum, v.maximum, v.hasNan)
    ensures v.VBytes? ==> Brief(v) == SBytes(v.length)
    ensures v.VStr? ==> (Brief(v).SStr? && Brief(v).strLen == |v.s|
      && (|v.s| <= 80 ==> Brief(v).prefix == v.s)
      && (|v.s| > 80 ==> Brief(v).prefix[..80] == v.s[..80]))
    ensures v.VDict? ==> (Brief(v).SDict? && Brief(v).dictLen == |v.keys|
      && |Brief(v).dictKeys| == (if |v.keys| <= 30 then |v.keys| else 30)
      && Brief(v).dictKeys == v.keys[..|Brief(v).dictKeys|])
    ensures (v.VList? || v.VTuple? || v.VSet?) ==> Brief(v) == SLen(v.length)
  {
    if v.VStr? && |v.s| > 80 { TruncateLong(v.s, 80); }
  }
}
