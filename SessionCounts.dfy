/**
 * The per-exercise rep totals the session holds and the summary shows: a
 * record with one entry per exercise type, in the key order the record is
 * built with (squat, push-up, bicep curl).
 */
module SessionCounts {
  import opened ExerciseDetection

  /** The keys in the order `Object.keys` and `Object.values` list them. */
  const KeyOrder: seq<ExerciseType> := [Squat, Pushup, BicepCurl]

  /** The position of a type in `KeyOrder`. */
  function Rank(t: ExerciseType): (k: nat)
    ensures k < |KeyOrder| && KeyOrder[k] == t
  {
    match t
    case Squat => 0
    case Pushup => 1
    case BicepCurl => 2
  }

  /** Every type is one of the keys. */
  lemma KeyOrderComplete()
    ensures forall t :: t in KeyOrder
  {
    forall t ensures t in KeyOrder {
      assert KeyOrder[Rank(t)] == t;
    }
  }

  datatype Counts = Counts(squat: int, pushup: int, bicepCurl: int) {

    function Get(t: ExerciseType): int
    {
      match t
      case Squat => squat
      case Pushup => pushup
      case BicepCurl => bicepCurl
    }

    /** `{...counts, [t]: n}`: entry `t` overwritten, the others kept. */
    function With(t: ExerciseType, n: int): (c: Counts)
      ensures c.Get(t) == n
      ensures forall u :: u != t ==> c.Get(u) == Get(u)
    {
      match t
      case Squat => this.(squat := n)
      case Pushup => this.(pushup := n)
      case BicepCurl => this.(bicepCurl := n)
    }

    /** `Object.values`: the entries in key order. */
    function Values(): (vs: seq<int>)
      ensures |vs| == |KeyOrder|
      ensures forall i :: 0 <= i < |vs| ==> vs[i] == Get(KeyOrder[i])
    {
      [squat, pushup, bicepCurl]
    }
  }

  /** `{squat: 0, pushup: 0, bicepCurl: 0}`. */
  const Zero := Counts(0, 0, 0)

  predicate AllZero(c: Counts)
  {
    forall t :: c.Get(t) == 0
  }
}
