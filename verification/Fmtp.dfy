/** Format parameters of a codec (src/description/fmtp). Letter case is folded for ASCII only. */
module Fmtp {
  import opened Types
  import opened MirrorKeys

  // ------------------------------------------------------------------ text

  function LowerChar(c: char): char {
    if 'A' <= c <= 'Z' then (c as int + 32) as char else c
  }

  function Lower(s: string): string {
    seq(|s|, k requires 0 <= k < |s| => LowerChar(s[k]))
  }

  predicate IsSpace(c: char) { c == ' ' || c == '\t' || c == '\n' || c == '\r' }

  function TrimStart(s: string): string {
    if s != [] && IsSpace(s[0]) then TrimStart(s[1..]) else s
  }

  function TrimEnd(s: string): string {
    if s != [] && IsSpace(s[|s| - 1]) then TrimEnd(s[..|s| - 1]) else s
  }

  function Trim(s: string): string { TrimEnd(TrimStart(s)) }

  /** The length of the longest prefix of `s` without `c`. */
  function Until(s: string, c: char): (n: nat)
    ensures n <= |s|
    ensures forall k :: 0 <= k < n ==> s[k] != c
    ensures n < |s| ==> s[n] == c
  {
    if s == [] || s[0] == c then 0 else 1 + Until(s[1..], c)
  }

  /** The pieces of `s` between separators; there is always at least one. */
  function Split(s: string, sep: char): (pieces: seq<string>)
    ensures pieces != []
    decreases |s|
  {
    var n := Until(s, sep);
    if n == |s| then [s] else [s[..n]] + Split(s[n + 1..], sep)
  }

  /** An unsigned number of at most 255, as the standard parser reads it. */
  function ParseU8(s: string): Option<nat> {
    var digits := if s != [] && s[0] == '+' then s[1..] else s;
    if digits == [] then None else ParseDigits(digits)
  }

  function ParseDigits(digits: string): (r: Option<nat>)
    ensures r.Some? ==> r.value <= 255
  {
    if digits == [] then Some(0)
    else
      var n := |digits| - 1;
      var high := ParseDigits(digits[..n]);
      if '0' <= digits[n] <= '9' && high.Some? && high.value * 10 + (digits[n] as int - '0' as int) <= 255
      then Some(high.value * 10 + (digits[n] as int - '0' as int))
      else None
  }

  function HexDigit(c: char): Option<nat> {
    if '0' <= c <= '9' then Some(c as int - '0' as int)
    else if 'a' <= c <= 'f' then Some(c as int - 'a' as int + 10)
    else if 'A' <= c <= 'F' then Some(c as int - 'A' as int + 10)
    else None
  }

  function HexDecode(s: string): Option<seq<nat>> {
    if s == [] then Some([])
    else if |s| == 1 then None
    else
      var high, low, rest := HexDigit(s[0]), HexDigit(s[1]), HexDecode(s[2..]);
      if high.Some? && low.Some? && rest.Some? then Some([high.value * 16 + low.value] + rest.value) else None
  }

  // ------------------------------------------------------------------ parameters

  type Parameters = map<string, string>

  datatype Fmtp = GenericFmtp(mimeType: string, parameters: Parameters) | H264Fmtp(parameters: Parameters) {
    function Parameter(key: string): Option<string> {
      if key in parameters then Some(parameters[key]) else None
    }
  }

  function KeyValue(piece: string): (string, string) {
    var p := Trim(piece);
    var n := Until(p, '=');
    (Lower(p[..n]), if n == |p| then "" else p[n + 1..])
  }

  function PairsIn(line: string): seq<(string, string)> {
    var pieces := Split(line, ';');
    seq(|pieces|, k requires 0 <= k < |pieces| => KeyValue(pieces[k]))
  }

  /** The last pair with a key decides its value. */
  function ParametersOf(pairs: seq<(string, string)>): Parameters {
    if pairs == [] then map[]
    else
      var n := |pairs| - 1;
      ParametersOf(pairs[..n])[pairs[n].0 := pairs[n].1]
  }

  function Parsed(mimeType: string, line: string): Fmtp {
    if Lower(mimeType) == "video/h264" then H264Fmtp(ParametersOf(PairsIn(line)))
    else GenericFmtp(mimeType, ParametersOf(PairsIn(line)))
  }

  method ReadParameters(line: string) returns (parameters: Parameters)
    ensures parameters == ParametersOf(PairsIn(line))
  {
    parameters := map[];
    var pieces := Split(line, ';');
    ghost var pairs := PairsIn(line);
    for k := 0 to |pieces|
      invariant |pairs| == |pieces| && parameters == ParametersOf(pairs[..k])
    {
      assert pairs[..k + 1][..k] == pairs[..k];
      var kv := KeyValue(pieces[k]);
      parameters := parameters[kv.0 := kv.1];
    }
    assert pairs[..|pieces|] == pairs;
  }

  method Parse(mimeType: string, line: string) returns (fmtp: Fmtp)
    ensures fmtp == Parsed(mimeType, line)
  {
    var parameters := ReadParameters(line);
    fmtp := if Lower(mimeType) == "video/h264" then H264Fmtp(parameters) else GenericFmtp(mimeType, parameters);
  }

  // ------------------------------------------------------------------ what is read

  /** The pieces, with the separator between them. */
  function Rejoined(pieces: seq<string>, sep: char): string
    requires pieces != []
  {
    if |pieces| == 1 then pieces[0] else pieces[0] + [sep] + Rejoined(pieces[1..], sep)
  }

  /** Splitting loses nothing, and no piece contains the separator. */
  lemma {:induction false} SplitLosesNothing(s: string, sep: char)
    ensures Rejoined(Split(s, sep), sep) == s
    ensures forall k :: 0 <= k < |Split(s, sep)| ==> sep !in Split(s, sep)[k]
    decreases |s|
  {
    var n := Until(s, sep);
    if n < |s| {
      SplitLosesNothing(s[n + 1..], sep);
      assert Split(s, sep)[1..] == Split(s[n + 1..], sep);
      assert s == s[..n] + [sep] + s[n + 1..];
    }
  }

  /** The pair with this number gives the key its value: it has the key, and none after it has. */
  ghost predicate Decides(pairs: seq<(string, string)>, k: nat, key: string) {
    k < |pairs| && pairs[k].0 == key && forall j :: k < j < |pairs| ==> pairs[j].0 != key
  }

  /** A parameter has the value of the last pair with its key. */
  lemma {:induction false} LastPairDecides(pairs: seq<(string, string)>, k: nat, key: string)
    requires Decides(pairs, k, key)
    ensures key in ParametersOf(pairs) && ParametersOf(pairs)[key] == pairs[k].1
  {
    var n := |pairs| - 1;
    if k < n {
      LastPairDecides(pairs[..n], k, key);
    }
  }

  /** A parameter is there only if some pair has its key. */
  lemma {:induction false} EveryKeyIsGiven(pairs: seq<(string, string)>, key: string) returns (k: nat)
    requires key in ParametersOf(pairs)
    ensures Decides(pairs, k, key)
  {
    var n := |pairs| - 1;
    if pairs[n].0 == key {
      k := n;
    } else {
      k := EveryKeyIsGiven(pairs[..n], key);
    }
  }

  /** A number is read back from its decimal digits, exactly if it fits eight bits. */
  lemma {:induction false} DecimalIsRead(n: nat)
    ensures ParseDigits(Decimal(n)) == if n <= 255 then Some(n) else None
    ensures ParseU8(Decimal(n)) == ParseDigits(Decimal(n))
    decreases n
  {
    var digits := Decimal(n);
    var last := |digits| - 1;
    assert digits[last] == Digit(n % 10) && Digit(n % 10) as int - '0' as int == n % 10;
    if n >= 10 {
      DecimalIsRead(n / 10);
      assert digits[..last] == Decimal(n / 10);
    } else {
      assert digits[..last] == [];
    }
  }

  // ------------------------------------------------------------------ compatibility

  /** No parameter that both sides give differs but for letter case. */
  predicate Consistent(a: Parameters, b: Parameters) {
    forall k :: k in a && k in b ==> Lower(a[k]) == Lower(b[k])
  }

  /** The profile of a level identifier: its first two bytes. */
  function Profile(id: string): Option<(nat, nat)> {
    var bytes := HexDecode(id);
    if bytes.Some? && |bytes.value| >= 2 then Some((bytes.value[0], bytes.value[1])) else None
  }

  predicate SameProfile(a: string, b: string) {
    Profile(a).Some? && Profile(a) == Profile(b)
  }

  predicate Matches(a: Fmtp, b: Fmtp) {
    match (a, b)
    case (GenericFmtp(m, p), GenericFmtp(n, q)) => Lower(m) == Lower(n) && Consistent(p, q)
    case (H264Fmtp(p), H264Fmtp(q)) =>
      && "packetization-mode" in p && "packetization-mode" in q
      && p["packetization-mode"] == q["packetization-mode"]
      && "profile-level-id" in p && "profile-level-id" in q
      && SameProfile(p["profile-level-id"], q["profile-level-id"])
    case _ => false
  }
}
