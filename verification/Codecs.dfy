/**
 Matching remote codecs against the registered ones (src/description/rtp_codec.rs and
 src/configs/media_config.rs). A retransmission codec names the codec it repairs with the parameter
 `apt` (section 8 of RFC 4588).
 */
module Codecs {
  import opened Types
  import opened Fmtp

  datatype Codec = Codec(
    mimeType: string, clockRate: nat, channels: nat, fmtpLine: string, feedbacks: seq<string>, payloadType: nat)

  datatype CodecMatch = NoMatch | Partial | Exact

  function FmtpOf(c: Codec): Fmtp { Parsed(c.mimeType, c.fmtpLine) }

  /** The payload type of the repaired codec, if the codec names one; the inner option is the parsed number. */
  function AptOf(c: Codec): Option<Option<nat>> {
    match FmtpOf(c).Parameter("apt")
    case None => None
    case Some(text) => Some(ParseU8(text))
  }

  predicate SameMime(a: Codec, b: Codec) { Lower(a.mimeType) == Lower(b.mimeType) }

  // ------------------------------------------------------------------ searching

  function FirstMatching(haystack: seq<Codec>, fmtp: Fmtp): (r: Option<Codec>)
    ensures r.Some? ==> r.value in haystack && Matches(fmtp, FmtpOf(r.value))
    ensures r.None? ==> forall c :: c in haystack ==> !Matches(fmtp, FmtpOf(c))
  {
    if haystack == [] then None
    else if Matches(fmtp, FmtpOf(haystack[0])) then Some(haystack[0])
    else FirstMatching(haystack[1..], fmtp)
  }

  function FirstSameMime(haystack: seq<Codec>, needle: Codec): (r: Option<Codec>)
    ensures r.Some? ==> r.value in haystack && SameMime(r.value, needle)
    ensures r.None? ==> forall c :: c in haystack ==> !SameMime(c, needle)
  {
    if haystack == [] then None
    else if SameMime(haystack[0], needle) then Some(haystack[0])
    else FirstSameMime(haystack[1..], needle)
  }

  /** Exact when the parameters of some codec match; partial when only a MIME type does. */
  function FuzzySearch(needle: Codec, haystack: seq<Codec>): (m: CodecMatch)
    ensures m == Exact <==> exists c :: c in haystack && Matches(FmtpOf(needle), FmtpOf(c))
    ensures m == NoMatch <==>
              forall c :: c in haystack ==> !Matches(FmtpOf(needle), FmtpOf(c)) && !SameMime(c, needle)
  {
    if FirstMatching(haystack, FmtpOf(needle)).Some? then Exact
    else if FirstSameMime(haystack, needle).Some? then Partial
    else NoMatch
  }

  // ------------------------------------------------------------------ classifying a remote codec

  predicate HasPayload(codecs: seq<Codec>, p: nat) {
    exists k :: 0 <= k < |codecs| && codecs[k].payloadType == p
  }

  method FindPayload(codecs: seq<Codec>, p: nat) returns (found: bool)
    ensures found == HasPayload(codecs, p)
  {
    found := false;
    for k := 0 to |codecs|
      invariant !found && !HasPayload(codecs[..k], p)
    {
      if codecs[k].payloadType == p {
        return true;
      }
    }
  }

  function Classified(remote: Codec, codecs: seq<Codec>, exact: seq<Codec>, partial: seq<Codec>): Result<CodecMatch> {
    var found := FuzzySearch(remote, codecs);
    match AptOf(remote)
    case None => Ok(found)
    case Some(None) => Err("ParseIntError")
    case Some(Some(p)) =>
      if HasPayload(exact, p) then Ok(found)
      else if HasPayload(partial, p) then Ok(if found == Exact then Partial else found)
      else Ok(NoMatch)
  }

  method MatchRemoteCodec(remote: Codec, codecs: seq<Codec>, exact: seq<Codec>, partial: seq<Codec>)
    returns (r: Result<CodecMatch>)
    ensures r == Classified(remote, codecs, exact, partial)
  {
    var fmtp := Parse(remote.mimeType, remote.fmtpLine);
    var apt := fmtp.Parameter("apt");
    if apt.Some? {
      var p := ParseU8(apt.value);
      if p.None? {
        return Err("ParseIntError");
      }
      var aptMatch := NoMatch;
      var inExact := FindPayload(exact, p.value);
      if inExact {
        aptMatch := Exact;
      }
      if aptMatch == NoMatch {
        var inPartial := FindPayload(partial, p.value);
        if inPartial {
          aptMatch := Partial;
        }
      }
      if aptMatch == NoMatch {
        return Ok(NoMatch);
      }
      var found := FuzzySearch(remote, codecs);
      if found == Exact && aptMatch == Partial {
        found := Partial;
      }
      return Ok(found);
    }
    return Ok(FuzzySearch(remote, codecs));
  }

  // ------------------------------------------------------------------ a whole section

  datatype Matched = Matched(exact: seq<Codec>, partial: seq<Codec>)

  function Noted(m: Matched, c: Codec, found: CodecMatch): Matched {
    match found
    case Exact => m.(exact := m.exact + [c])
    case Partial => m.(partial := m.partial + [c])
    case NoMatch => m
  }

  /** The matches after the remote codecs have been classified one by one, beginning with `m`. */
  function ClassifyFrom(m: Matched, remote: seq<Codec>, codecs: seq<Codec>): Result<Matched>
    decreases |remote|
  {
    if remote == [] then Ok(m)
    else
      match Classified(remote[0], codecs, m.exact, m.partial)
      case Err(e) => Err(e)
      case Ok(found) => ClassifyFrom(Noted(m, remote[0], found), remote[1..], codecs)
  }

  function Classify(remote: seq<Codec>, codecs: seq<Codec>): Result<Matched> {
    ClassifyFrom(Matched([], []), remote, codecs)
  }

  /** Exact matches when there are any, else the partial ones. */
  function Chosen(m: Matched): seq<Codec> { if m.exact != [] then m.exact else m.partial }

  method ClassifyAll(remote: seq<Codec>, codecs: seq<Codec>) returns (r: Result<Matched>)
    ensures r == Classify(remote, codecs)
  {
    var m := Matched([], []);
    for k := 0 to |remote|
      invariant Classify(remote, codecs) == ClassifyFrom(m, remote[k..], codecs)
    {
      assert remote[k..][1..] == remote[k + 1..];
      var found := MatchRemoteCodec(remote[k], codecs, m.exact, m.partial);
      if found.Err? {
        return Err(found.error);
      }
      if found.value == Exact {
        m := m.(exact := m.exact + [remote[k]]);
      } else if found.value == Partial {
        m := m.(partial := m.partial + [remote[k]]);
      }
    }
    return Ok(m);
  }

  // ------------------------------------------------------------------ the list stays closed under apt

  /** Every codec that repairs payload type `p` comes after a codec with that payload type. */
  ghost predicate AptClosed(codecs: seq<Codec>) {
    forall k :: 0 <= k < |codecs| ==> Repairs(codecs[k], codecs[..k], [])
  }

  /** What the codec repairs, if anything, is in one of the two lists. */
  ghost predicate Repairs(c: Codec, before: seq<Codec>, others: seq<Codec>) {
    match AptOf(c)
    case None => true
    case Some(None) => false
    case Some(Some(p)) => HasPayload(before, p) || HasPayload(others, p)
  }

  ghost predicate ClosedBeside(codecs: seq<Codec>, others: seq<Codec>) {
    forall k :: 0 <= k < |codecs| ==> Repairs(codecs[k], codecs[..k], others)
  }

  lemma ClosedAppend(codecs: seq<Codec>, others: seq<Codec>, c: Codec)
    requires ClosedBeside(codecs, others) && Repairs(c, codecs, others)
    ensures ClosedBeside(codecs + [c], others)
  {
    forall k | 0 <= k < |codecs + [c]|
      ensures Repairs((codecs + [c])[k], (codecs + [c])[..k], others)
    {
      if k < |codecs| {
        assert (codecs + [c])[..k] == codecs[..k];
      } else {
        assert (codecs + [c])[..k] == codecs;
      }
    }
  }

  lemma ClosedGrow(codecs: seq<Codec>, others: seq<Codec>, c: Codec)
    requires ClosedBeside(codecs, others)
    ensures ClosedBeside(codecs, others + [c])
  {
    forall p | HasPayload(others, p)
      ensures HasPayload(others + [c], p)
    {
      var i :| 0 <= i < |others| && others[i].payloadType == p;
      assert (others + [c])[i].payloadType == p;
    }
  }

  ghost predicate MatchedClosed(m: Matched) {
    AptClosed(m.exact) && ClosedBeside(m.partial, m.exact)
  }

  lemma NotedIsClosed(m: Matched, c: Codec, codecs: seq<Codec>)
    requires MatchedClosed(m) && Classified(c, codecs, m.exact, m.partial).Ok?
    ensures MatchedClosed(Noted(m, c, Classified(c, codecs, m.exact, m.partial).value))
  {
    match Classified(c, codecs, m.exact, m.partial).value
    case Exact =>
      ClosedAppend(m.exact, [], c);
      ClosedGrow(m.partial, m.exact, c);
    case Partial =>
      ClosedAppend(m.partial, m.exact, c);
    case NoMatch =>
  }

  lemma {:induction false} ClassifiedIsClosed(m: Matched, remote: seq<Codec>, codecs: seq<Codec>)
    requires MatchedClosed(m) && ClassifyFrom(m, remote, codecs).Ok?
    ensures MatchedClosed(ClassifyFrom(m, remote, codecs).value)
    decreases |remote|
  {
    if remote != [] {
      var found := Classified(remote[0], codecs, m.exact, m.partial);
      NotedIsClosed(m, remote[0], codecs);
      ClassifiedIsClosed(Noted(m, remote[0], found.value), remote[1..], codecs);
    }
  }

  /** The codecs chosen for a section are closed under apt, whether the matches were exact or partial. */
  lemma ChosenIsClosed(remote: seq<Codec>, codecs: seq<Codec>)
    requires Classify(remote, codecs).Ok?
    ensures AptClosed(Chosen(Classify(remote, codecs).value))
  {
    ClassifiedIsClosed(Matched([], []), remote, codecs);
  }

  // ------------------------------------------------------------------ what is matched

  /** Some registered codec agrees with it in its parameters. */
  ghost predicate HasMatch(c: Codec, codecs: seq<Codec>) {
    exists r :: r in codecs && Matches(FmtpOf(c), FmtpOf(r))
  }

  /** Some registered codec has its MIME type. */
  ghost predicate HasMime(c: Codec, codecs: seq<Codec>) {
    exists r :: r in codecs && SameMime(r, c)
  }

  /** It repairs nothing, or a codec of the list. */
  ghost predicate RepairsAny(c: Codec, codecs: seq<Codec>) {
    AptOf(c).None? || (AptOf(c).value.Some? && HasPayload(codecs, AptOf(c).value.value))
  }

  /** What is exact and what partial, given those classified before. */
  lemma ClassifiedIs(c: Codec, codecs: seq<Codec>, exact: seq<Codec>, partial: seq<Codec>)
    ensures Classified(c, codecs, exact, partial).Err? <==> AptOf(c) == Some(None)
    ensures Classified(c, codecs, exact, partial) == Ok(Exact) <==> HasMatch(c, codecs) && RepairsAny(c, exact)
    ensures Classified(c, codecs, exact, partial) == Ok(Partial) <==>
            if RepairsAny(c, exact) then !HasMatch(c, codecs) && HasMime(c, codecs)
            else RepairsAny(c, partial) && (HasMatch(c, codecs) || HasMime(c, codecs))
  {
  }

  /** A codec that repairs nothing is matched exactly if it agrees with a registered one, else by its MIME type. */
  lemma {:induction false} PlainCodecs(m: Matched, remote: seq<Codec>, codecs: seq<Codec>, c: Codec)
    requires ClassifyFrom(m, remote, codecs).Ok? && AptOf(c).None?
    ensures var m' := ClassifyFrom(m, remote, codecs).value;
      && (c in m'.exact <==> c in m.exact || (c in remote && HasMatch(c, codecs)))
      && (c in m'.partial <==> c in m.partial || (c in remote && !HasMatch(c, codecs) && HasMime(c, codecs)))
    decreases |remote|
  {
    if remote != [] {
      var found := Classified(remote[0], codecs, m.exact, m.partial);
      ClassifiedIs(remote[0], codecs, m.exact, m.partial);
      PlainCodecs(Noted(m, remote[0], found.value), remote[1..], codecs, c);
      assert c in remote <==> c == remote[0] || c in remote[1..];
    }
  }

  /** Classifying fails exactly if some remote codec repairs what is no number. */
  lemma {:induction false} ClassifyFailsIff(m: Matched, remote: seq<Codec>, codecs: seq<Codec>)
    ensures ClassifyFrom(m, remote, codecs).Err? <==> exists c :: c in remote && AptOf(c) == Some(None)
    decreases |remote|
  {
    if remote != [] {
      var found := Classified(remote[0], codecs, m.exact, m.partial);
      if found.Ok? {
        ClassifyFailsIff(Noted(m, remote[0], found.value), remote[1..], codecs);
        assert forall c :: c in remote <==> c == remote[0] || c in remote[1..];
      }
    }
  }

  lemma {:induction false} ClassifySplit(m: Matched, remote: seq<Codec>, more: seq<Codec>, codecs: seq<Codec>)
    ensures ClassifyFrom(m, remote + more, codecs)
         == match ClassifyFrom(m, remote, codecs)
            case Err(e) => Err(e)
            case Ok(m') => ClassifyFrom(m', more, codecs)
    decreases |remote|
  {
    if remote == [] {
      assert remote + more == more;
    } else {
      assert (remote + more)[1..] == remote[1..] + more;
      var found := Classified(remote[0], codecs, m.exact, m.partial);
      if found.Ok? {
        ClassifySplit(Noted(m, remote[0], found.value), remote[1..], more, codecs);
      }
    }
  }

  lemma {:induction false} MatchesStay(m: Matched, remote: seq<Codec>, codecs: seq<Codec>)
    requires ClassifyFrom(m, remote, codecs).Ok?
    ensures var m' := ClassifyFrom(m, remote, codecs).value; m.exact <= m'.exact && m.partial <= m'.partial
    decreases |remote|
  {
    if remote != [] {
      MatchesStay(Noted(m, remote[0], Classified(remote[0], codecs, m.exact, m.partial).value), remote[1..], codecs);
    }
  }

  /** It agrees with a registered codec, and what it repairs is an exact match. */
  ghost predicate IsExact(c: Codec, codecs: seq<Codec>, m: Matched) { HasMatch(c, codecs) && RepairsAny(c, m.exact) }

  /** It is not, but has a registered MIME type or agrees with a codec, and what it repairs is a match. */
  ghost predicate IsPartial(c: Codec, codecs: seq<Codec>, m: Matched) {
    && !IsExact(c, codecs, m)
    && (HasMatch(c, codecs) || HasMime(c, codecs))
    && (RepairsAny(c, m.exact) || RepairsAny(c, m.partial))
  }

  /** At its place in a section, a codec is an exact match, a partial match or none by what came before it. */
  lemma MatchedInTurn(before: seq<Codec>, c: Codec, after: seq<Codec>, codecs: seq<Codec>)
    requires Classify(before + [c] + after, codecs).Ok?
    ensures Classify(before, codecs).Ok? && Classify(before + [c], codecs).Ok?
    ensures var m, m1 := Classify(before, codecs).value, Classify(before + [c], codecs).value;
      && m1.exact == m.exact + (if IsExact(c, codecs, m) then [c] else [])
      && m1.partial == m.partial + (if IsPartial(c, codecs, m) then [c] else [])
    ensures var m1, m' := Classify(before + [c], codecs).value, Classify(before + [c] + after, codecs).value;
            m1.exact <= m'.exact && m1.partial <= m'.partial
  {
    ClassifySplit(Matched([], []), before + [c], after, codecs);
    ClassifySplit(Matched([], []), before, [c], codecs);
    var m := Classify(before, codecs).value;
    ClassifiedIs(c, codecs, m.exact, m.partial);
    assert [c][1..] == [];
    MatchesStay(Classify(before + [c], codecs).value, after, codecs);
  }

  /** The section offers a codec that repairs nothing and agrees with a registered one. */
  ghost predicate AnyMatch(remote: seq<Codec>, codecs: seq<Codec>) {
    exists c :: c in remote && AptOf(c).None? && HasMatch(c, codecs)
  }

  lemma ExactIffAnyMatch(remote: seq<Codec>, codecs: seq<Codec>)
    requires Classify(remote, codecs).Ok?
    ensures Classify(remote, codecs).value.exact != [] <==> AnyMatch(remote, codecs)
  {
    var exact := Classify(remote, codecs).value.exact;
    ClassifiedIsClosed(Matched([], []), remote, codecs);
    if exact != [] {
      assert exact[..0] == [] && Repairs(exact[0], exact[..0], []);
      PlainCodecs(Matched([], []), remote, codecs, exact[0]);
    }
    if c :| c in remote && AptOf(c).None? && HasMatch(c, codecs) {
      PlainCodecs(Matched([], []), remote, codecs, c);
    }
  }

  /**
   A codec that repairs nothing is chosen for a section exactly if the section offers it and it agrees with a
   registered codec or, where none that repairs nothing does, has the MIME type of one.
   */
  lemma ChosenPlainCodecs(remote: seq<Codec>, codecs: seq<Codec>, c: Codec)
    requires Classify(remote, codecs).Ok? && AptOf(c).None?
    ensures c in Chosen(Classify(remote, codecs).value) <==>
            c in remote && if AnyMatch(remote, codecs) then HasMatch(c, codecs) else HasMime(c, codecs)
  {
    PlainCodecs(Matched([], []), remote, codecs, c);
    ExactIffAnyMatch(remote, codecs);
  }

  // ------------------------------------------------------------------ adding without duplicates

  predicate SameEntry(a: Codec, b: Codec) { a.mimeType == b.mimeType && a.payloadType == b.payloadType }

  predicate HasEntry(codecs: seq<Codec>, c: Codec) {
    exists k :: 0 <= k < |codecs| && SameEntry(codecs[k], c)
  }

  function Added(codecs: seq<Codec>, c: Codec): seq<Codec> {
    if HasEntry(codecs, c) then codecs else codecs + [c]
  }

  method AddCodec(codecs: seq<Codec>, c: Codec) returns (r: seq<Codec>)
    ensures r == Added(codecs, c)
  {
    for k := 0 to |codecs|
      invariant forall j :: 0 <= j < k ==> !SameEntry(codecs[j], c)
    {
      if SameEntry(codecs[k], c) {
        return codecs;
      }
    }
    return codecs + [c];
  }

  function Pushed(codecs: seq<Codec>, more: seq<Codec>): seq<Codec> {
    if more == [] then codecs else Added(Pushed(codecs, more[..|more| - 1]), more[|more| - 1])
  }

  method PushCodecs(codecs: seq<Codec>, more: seq<Codec>) returns (r: seq<Codec>)
    ensures r == Pushed(codecs, more)
  {
    r := codecs;
    for k := 0 to |more|
      invariant r == Pushed(codecs, more[..k])
    {
      assert more[..k + 1][..k] == more[..k];
      r := AddCodec(r, more[k]);
    }
    assert more[..|more|] == more;
  }

  /** No payload type gets lost by leaving out duplicates. */
  lemma {:induction false} PushedKeepsPayloads(codecs: seq<Codec>, more: seq<Codec>, p: nat)
    requires HasPayload(more, p) || HasPayload(codecs, p)
    ensures HasPayload(Pushed(codecs, more), p)
  {
    if more != [] {
      var n := |more| - 1;
      var before := Pushed(codecs, more[..n]);
      PayloadSplit(more, p);
      if HasPayload(more[..n], p) || HasPayload(codecs, p) {
        PushedKeepsPayloads(codecs, more[..n], p);
        var k :| 0 <= k < |before| && before[k].payloadType == p;
        assert Added(before, more[n])[k].payloadType == p;
      } else if !HasEntry(before, more[n]) {
        assert (before + [more[n]])[|before|].payloadType == p;
      }
    }
  }

  lemma PayloadSplit(codecs: seq<Codec>, p: nat)
    requires codecs != []
    ensures var n := |codecs| - 1;
            HasPayload(codecs, p) ==> HasPayload(codecs[..n], p) || codecs[n].payloadType == p
  {
  }

  lemma RepairsMore(c: Codec, few: seq<Codec>, many: seq<Codec>)
    requires forall p: nat :: HasPayload(few, p) ==> HasPayload(many, p)
    requires Repairs(c, few, [])
    ensures Repairs(c, many, [])
  {
  }

  lemma ClosedPrefix(codecs: seq<Codec>, n: nat)
    requires AptClosed(codecs) && n <= |codecs|
    ensures AptClosed(codecs[..n])
  {
    forall k | 0 <= k < n
      ensures Repairs(codecs[..n][k], codecs[..n][..k], [])
    {
      assert codecs[..n][..k] == codecs[..k];
    }
  }

  /** Leaving out duplicates keeps the list closed under apt. */
  lemma {:induction false} PushedIsClosed(codecs: seq<Codec>, more: seq<Codec>)
    requires AptClosed(codecs) && AptClosed(more)
    ensures AptClosed(Pushed(codecs, more))
  {
    if more != [] {
      var n := |more| - 1;
      ClosedPrefix(more, n);
      PushedIsClosed(codecs, more[..n]);
      var before, c := Pushed(codecs, more[..n]), more[n];
      if !HasEntry(before, c) {
        forall p: nat | HasPayload(more[..n], p)
          ensures HasPayload(before, p)
        {
          PushedKeepsPayloads(codecs, more[..n], p);
        }
        RepairsMore(c, more[..n], before);
        ClosedAppend(before, [], c);
      }
    }
  }

  lemma {:induction false} PushedEntries(codecs: seq<Codec>, more: seq<Codec>, c: Codec)
    ensures HasEntry(Pushed(codecs, more), c) <==> HasEntry(codecs, c) || HasEntry(more, c)
  {
    if more != [] {
      var n := |more| - 1;
      PushedEntries(codecs, more[..n], c);
      AddedEntry(Pushed(codecs, more[..n]), more[n], c);
      assert more == more[..n] + [more[n]];
      EntryAppended(more[..n], more[n], c);
    }
  }

  lemma EntryAppended(codecs: seq<Codec>, last: Codec, c: Codec)
    ensures HasEntry(codecs + [last], c) <==> HasEntry(codecs, c) || SameEntry(last, c)
  {
    var all := codecs + [last];
    assert all[|codecs|] == last;
    if k :| 0 <= k < |codecs| && SameEntry(codecs[k], c) {
      assert all[k] == codecs[k];
    }
  }

  lemma AddedEntry(codecs: seq<Codec>, last: Codec, c: Codec)
    ensures HasEntry(Added(codecs, last), c) <==> HasEntry(codecs, c) || SameEntry(last, c)
  {
    EntryAppended(codecs, last, c);
  }
}
