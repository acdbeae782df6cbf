/** Parsed session descriptions and the searches in them (src/description/mod.rs). */
module Sdp {
  import opened Types
  import opened Directions

  datatype Attribute = Attribute(key: string, value: Option<string>)

  datatype Media = Media(name: string, attributes: seq<Attribute>)

  datatype SdpType = UnspecifiedType | Offer | Pranswer | Answer | Rollback

  const APPLICATION := "application"

  function ValueAttribute(key: string, value: string): Attribute { Attribute(key, Some(value)) }

  function PropertyAttribute(key: string): Attribute { Attribute(key, None) }

  // ------------------------------------------------------------------ searching

  /** The value of the first `mid` attribute. */
  function MidIn(attributes: seq<Attribute>): Option<Mid> {
    if attributes == [] then None
    else if attributes[0].key == "mid" then attributes[0].value
    else MidIn(attributes[1..])
  }

  /** The first attribute that names a direction decides it. */
  function DirectionIn(attributes: seq<Attribute>): Direction {
    if attributes == [] then Unspecified
    else if DirectionOf(attributes[0].key) != Unspecified then DirectionOf(attributes[0].key)
    else DirectionIn(attributes[1..])
  }

  function MidOf(m: Media): Option<Mid> { MidIn(m.attributes) }

  function PeerDirection(m: Media): Direction { DirectionIn(m.attributes) }

  /** An audio or video section with an explicit direction. */
  predicate Negotiable(m: Media) {
    m.name != APPLICATION && KindOf(m.name) != UnknownKind && PeerDirection(m) != Unspecified
  }

  /** None of the attributes is a `mid`. */
  ghost predicate NoMid(attributes: seq<Attribute>) {
    forall k :: 0 <= k < |attributes| ==> attributes[k].key != "mid"
  }

  /** None of the attributes names a direction. */
  ghost predicate NoDirection(attributes: seq<Attribute>) {
    forall k :: 0 <= k < |attributes| ==> DirectionOf(attributes[k].key) == Unspecified
  }

  lemma {:induction false} MidAfter(before: seq<Attribute>, mid: Mid, after: seq<Attribute>)
    requires NoMid(before)
    ensures MidIn(before + [ValueAttribute("mid", mid)] + after) == Some(mid)
  {
    var all := before + [ValueAttribute("mid", mid)] + after;
    if before != [] {
      assert all[1..] == before[1..] + [ValueAttribute("mid", mid)] + after;
      MidAfter(before[1..], mid, after);
    }
  }

  lemma {:induction false} DirectionAfter(before: seq<Attribute>, d: Direction, after: seq<Attribute>)
    requires NoDirection(before) && d != Unspecified
    ensures DirectionIn(before + [PropertyAttribute(DirectionName(d))] + after) == d
  {
    var all := before + [PropertyAttribute(DirectionName(d))] + after;
    if before != [] {
      assert all[1..] == before[1..] + [PropertyAttribute(DirectionName(d))] + after;
      DirectionAfter(before[1..], d, after);
    }
  }

  method GetMidValue(m: Media) returns (mid: Option<Mid>)
    ensures mid == MidOf(m)
  {
    for k := 0 to |m.attributes|
      invariant MidOf(m) == MidIn(m.attributes[k..])
    {
      if m.attributes[k].key == "mid" {
        return m.attributes[k].value;
      }
      assert m.attributes[k..][1..] == m.attributes[k + 1..];
    }
    return None;
  }

  method GetPeerDirection(m: Media) returns (d: Direction)
    ensures d == PeerDirection(m)
  {
    for k := 0 to |m.attributes|
      invariant PeerDirection(m) == DirectionIn(m.attributes[k..])
    {
      var direction := DirectionOf(m.attributes[k].key);
      if direction != Unspecified {
        return direction;
      }
      assert m.attributes[k..][1..] == m.attributes[k + 1..];
    }
    return Unspecified;
  }
}
