/** Value types shared by every component of the replica-coordination core. */
module Common {

  datatype Option<T> = None | Some(value: T)

  /** One entry of the presence tracker's participant dictionary: the sender
      id it is keyed by, the state the participant last published in a
      heartbeat, and the local time (milliseconds) that heartbeat arrived. */
  datatype Participant<D> = Participant(src: string, data: D, timestamp: int)

  /** No two entries of a participant list share a sender id (the list models
      a dictionary keyed by `src`, in key-insertion order). */
  ghost predicate UniqueSrcs<D>(ps: seq<Participant<D>>)
  {
    forall i, j :: 0 <= i < j < |ps| ==> ps[i].src != ps[j].src
  }

  /** The sender ids of a participant list, in list order. */
  function Srcs<D>(ps: seq<Participant<D>>): (r: seq<string>)
    ensures |r| == |ps|
    ensures forall i :: 0 <= i < |ps| ==> r[i] == ps[i].src
  {
    if ps == [] then [] else [ps[0].src] + Srcs(ps[1..])
  }

  /** What `Array.prototype.sort` needs of a comparator callback to order
      the elements of `s` consistently: `cmp(a, b) < 0` exactly when
      `cmp(b, a) > 0`, and "not after" (`<= 0`) is transitive. On `s` such
      a comparator is a total preorder; the default `(a, b) => 0` is one. */
  ghost predicate ConsistentOn<T>(cmp: (T, T) -> int, s: seq<T>)
  {
    && (forall i, j :: 0 <= i < |s| && 0 <= j < |s| ==> (cmp(s[i], s[j]) < 0 <==> cmp(s[j], s[i]) > 0))
    && (forall i, j, k ::
          0 <= i < |s| && 0 <= j < |s| && 0 <= k < |s| && cmp(s[i], s[j]) <= 0 && cmp(s[j], s[k]) <= 0
          ==> cmp(s[i], s[k]) <= 0)
  }
}
