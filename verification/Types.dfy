/** Identifiers and addresses shared by every component (src/types.rs). */
module Types {

  datatype Option<+T> = None | Some(value: T)

  datatype Result<+T> = Ok(value: T) | Err(error: string)

  type SessionId = nat
  type EndpointId = nat
  type UserName = string
  type Mid = string

  datatype SocketAddr = SocketAddr(ip: string, port: nat)

  datatype FourTuple = FourTuple(local: SocketAddr, peer: SocketAddr)

  /** The addresses of a datagram with its explicit congestion notification bits. */
  datatype TransportContext = TransportContext(local: SocketAddr, peer: SocketAddr, ecn: Option<nat>) {
    function Tuple(): FourTuple { FourTuple(local, peer) }
  }

  /** Each element of `s` sits at one position only. */
  ghost predicate Distinct<T>(s: seq<T>) {
    forall i, j :: 0 <= i < j < |s| ==> s[i] != s[j]
  }

  /** `s` lists the elements of `elements`, each once, in some order. */
  ghost predicate Enumerates<T(!new)>(s: seq<T>, elements: set<T>) {
    Distinct(s) && forall x :: x in s <==> x in elements
  }

  lemma Element<T>(s: set<T>) returns (x: T)
    requires s != {}
    ensures x in s
  {
    x :| x in s;
  }

  lemma DistinctConcat<T>(s: seq<T>, t: seq<T>)
    ensures Distinct(s + t) <==> Distinct(s) && Distinct(t) && forall x <- s :: x !in t
  {
    if Distinct(s + t) {
      DistinctParts(s, t);
    } else {
      var i, j :| 0 <= i < j < |s + t| && (s + t)[i] == (s + t)[j];
      if j < |s| {
        assert s[i] == s[j];
      } else if i < |s| {
        assert s[i] == t[j - |s|] && s[i] in t;
      } else {
        assert t[i - |s|] == t[j - |s|];
      }
    }
  }

  lemma DistinctParts<T>(s: seq<T>, t: seq<T>)
    requires Distinct(s + t)
    ensures Distinct(s) && Distinct(t) && forall x <- s :: x !in t
  {
    forall i, j | 0 <= i < j < |s|
      ensures s[i] != s[j]
    {
      assert (s + t)[i] != (s + t)[j];
    }
    forall i, j | 0 <= i < j < |t|
      ensures t[i] != t[j]
    {
      assert (s + t)[|s| + i] != (s + t)[|s| + j];
    }
    forall i, j | 0 <= i < |s| && 0 <= j < |t|
      ensures s[i] != t[j]
    {
      assert (s + t)[i] != (s + t)[|s| + j];
    }
  }
}
