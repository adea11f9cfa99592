/**
 * The end-of-workout summary: the total of all reps, the breakdown of the
 * exercises that have any reps, and the display name of each exercise.
 * The total time is shown with `TimeFormat.FormatTime`.
 */
module WorkoutSummary {
  import opened ExerciseDetection
  import opened SessionCounts

  /** The sum of a sequence, by recursion from the front. */
  function Sum(xs: seq<int>): int
  {
    if xs == [] then 0 else xs[0] + Sum(xs[1..])
  }

  /** `xs.reduce((sum, count) => sum + count, acc)`: a left fold. */
  function Reduce(acc: int, xs: seq<int>): int
    decreases |xs|
  {
    if xs == [] then acc else Reduce(acc + xs[0], xs[1..])
  }

  /** The left fold the source uses adds up the same total. */
  lemma {:induction false} ReduceIsSum(acc: int, xs: seq<int>)
    ensures Reduce(acc, xs) == acc + Sum(xs)
    decreases |xs|
  {
    if xs != [] {
      ReduceIsSum(acc + xs[0], xs[1..]);
    }
  }

  /** `getTotalReps`: the fold of the three entries. */
  function TotalReps(counts: Counts): int
  {
    Reduce(0, counts.Values())
  }

  /** The total is the sum of the three counts, and is not negative when
      none of them is. */
  lemma TotalRepsIsSum(counts: Counts)
    ensures TotalReps(counts) == counts.squat + counts.pushup + counts.bicepCurl
    ensures counts.squat >= 0 && counts.pushup >= 0 && counts.bicepCurl >= 0 ==> TotalReps(counts) >= 0
  {
    var vs := counts.Values();
    ReduceIsSum(0, vs);
    assert vs[1..][1..][1..] == [];
    assert Sum(vs) == vs[0] + Sum(vs[1..]);
    assert Sum(vs[1..]) == vs[1] + Sum(vs[1..][1..]);
    assert Sum(vs[1..][1..]) == vs[2] + Sum(vs[1..][1..][1..]);
  }

  predicate InKeyOrder(ts: seq<ExerciseType>)
  {
    forall i, j :: 0 <= i < j < |ts| ==> Rank(ts[i]) < Rank(ts[j])
  }

  /** In an ordered list the head ranks below everything after it, and the
      tail is ordered. */
  lemma HeadBeforeTail(keys: seq<ExerciseType>)
    requires keys != [] && InKeyOrder(keys)
    ensures InKeyOrder(keys[1..])
    ensures forall u :: u in keys[1..] ==> Rank(keys[0]) < Rank(u)
  {
    var tail := keys[1..];
    forall i, j | 0 <= i < j < |tail| ensures Rank(tail[i]) < Rank(tail[j]) {
      assert tail[i] == keys[i + 1] && tail[j] == keys[j + 1];
    }
    forall u | u in tail ensures Rank(keys[0]) < Rank(u) {
      var j :| 0 <= j < |tail| && tail[j] == u;
      assert keys[j + 1] == u;
    }
  }

  /** A type ranking below every member of an ordered list can lead it. */
  lemma PrependInOrder(t: ExerciseType, rest: seq<ExerciseType>)
    requires InKeyOrder(rest)
    requires forall u :: u in rest ==> Rank(t) < Rank(u)
    ensures InKeyOrder([t] + rest)
  {
    var r := [t] + rest;
    forall i, j | 0 <= i < j < |r| ensures Rank(r[i]) < Rank(r[j]) {
      assert r[j] == rest[j - 1] && r[j] in rest;
      if i > 0 {
        assert r[i] == rest[i - 1];
      }
    }
  }

  /** The types of `keys` whose count is positive, in the order of `keys`. */
  function Positive(counts: Counts, keys: seq<ExerciseType>): (r: seq<ExerciseType>)
    ensures forall t :: t in r <==> t in keys && counts.Get(t) > 0
    ensures InKeyOrder(keys) ==> InKeyOrder(r)
  {
    if keys == [] then []
    else
      var rest := Positive(counts, keys[1..]);
      if counts.Get(keys[0]) > 0 then
        assert InKeyOrder(keys) ==> InKeyOrder([keys[0]] + rest) by {
          if InKeyOrder(keys) {
            HeadBeforeTail(keys);
            PrependInOrder(keys[0], rest);
          }
        }
        [keys[0]] + rest
      else
        assert InKeyOrder(keys) ==> InKeyOrder(rest) by {
          if InKeyOrder(keys) {
            HeadBeforeTail(keys);
          }
        }
        rest
  }

  /** The exercise breakdown: the `count > 0` filter over the keys. */
  function Breakdown(counts: Counts): (r: seq<ExerciseType>)
    ensures forall t :: t in r <==> counts.Get(t) > 0
    ensures InKeyOrder(r)
  {
    KeyOrderComplete();
    Positive(counts, KeyOrder)
  }

  /** `getExerciseName`. */
  function ExerciseName(t: ExerciseType): string
  {
    match t
    case Squat => "Squats"
    case Pushup => "Push-ups"
    case BicepCurl => "Bicep Curls"
  }

  /** Different exercises have different names. */
  lemma ExerciseNameInjective(t: ExerciseType, u: ExerciseType)
    ensures ExerciseName(t) == ExerciseName(u) ==> t == u
  {
  }
}
