/**
 * The aggregation step of `Manager.Compare`, shared by internal/outbound/manager.go
 * and internal/ai/manager.go. The goroutines each append a success to a shared
 * result slice or send a failure to an error channel; here the branch outcomes
 * are a sequence and the appends a fold over it, so the order of the collected
 * results is one possible completion order.
 */
module Comparison {

  import opened Results
  import opened Models

  /** The successful branches' responses, in branch order. */
  function Successes<E>(os: seq<Result<GenerationResponse, E>>): (rs: seq<GenerationResponse>)
    ensures |rs| <= |os|
    ensures forall r :: r in rs <==> Ok(r) in os
    decreases |os|
  {
    if |os| == 0 then []
    else (if os[0].Ok? then [os[0].value] else []) + Successes(os[1..])
  }

  /** The failed branches' errors, in branch order. */
  function Failures<E>(os: seq<Result<GenerationResponse, E>>): (es: seq<E>)
    ensures |es| <= |os|
    ensures forall i :: 0 <= i < |es| ==> Err(es[i]) in os
    ensures forall k :: 0 <= k < |os| && os[k].Err? ==> os[k].error in es
    decreases |os|
  {
    if |os| == 0 then []
    else (if os[0].Err? then [os[0].error] else []) + Failures(os[1..])
  }

  /** Every branch is either a success or a failure: the two counts add up to the number of branches. */
  lemma {:induction false} SuccessesPlusFailures<E>(os: seq<Result<GenerationResponse, E>>)
    ensures |Successes(os)| + |Failures(os)| == |os|
    decreases |os|
  {
    if |os| > 0 {
      SuccessesPlusFailures(os[1..]);
    }
  }

  /** No branch succeeded exactly when every branch failed. */
  lemma {:induction false} NoSuccessIff<E>(os: seq<Result<GenerationResponse, E>>)
    ensures |Successes(os)| == 0 <==> forall i :: 0 <= i < |os| ==> os[i].Err?
    decreases |os|
  {
    if |os| > 0 {
      NoSuccessIff(os[1..]);
      assert forall i :: 1 <= i < |os| ==> os[i] == os[1..][i - 1];
    }
  }

  /** The shared accumulators once every branch has finished. */
  datatype Collected<E> = Collected(results: seq<GenerationResponse>, errs: seq<E>)

  /** The appends, one branch after another. */
  function Collect<E>(os: seq<Result<GenerationResponse, E>>): Collected<E>
    decreases |os|
  {
    if |os| == 0 then Collected([], [])
    else
      var c := Collect(os[..|os| - 1]);
      match os[|os| - 1]
      case Ok(r) => c.(results := c.results + [r])
      case Err(e) => c.(errs := c.errs + [e])
  }

  lemma {:induction false} SuccessesSnoc<E>(os: seq<Result<GenerationResponse, E>>, x: Result<GenerationResponse, E>)
    ensures Successes(os + [x]) == Successes(os) + (if x.Ok? then [x.value] else [])
    decreases |os|
  {
    if |os| == 0 {
      assert os + [x] == [x];
    } else {
      SuccessesSnoc(os[1..], x);
      var ys := os + [x];
      assert ys[0] == os[0] && ys[1..] == os[1..] + [x];
    }
  }

  lemma {:induction false} FailuresSnoc<E>(os: seq<Result<GenerationResponse, E>>, x: Result<GenerationResponse, E>)
    ensures Failures(os + [x]) == Failures(os) + (if x.Err? then [x.error] else [])
    decreases |os|
  {
    if |os| == 0 {
      assert os + [x] == [x];
    } else {
      FailuresSnoc(os[1..], x);
      var ys := os + [x];
      assert ys[0] == os[0] && ys[1..] == os[1..] + [x];
    }
  }

  /** The fold collects exactly the successes and exactly the failures, each in branch order. */
  lemma {:induction false} CollectPartitions<E>(os: seq<Result<GenerationResponse, E>>)
    ensures Collect(os).results == Successes(os)
    ensures Collect(os).errs == Failures(os)
    decreases |os|
  {
    if |os| > 0 {
      var init := os[..|os| - 1];
      CollectPartitions(init);
      SuccessesSnoc(init, os[|os| - 1]);
      FailuresSnoc(init, os[|os| - 1]);
      assert init + [os[|os| - 1]] == os;
    }
  }

  /**
   * The aggregation as the source writes it: all-failed is an error, and
   * otherwise `CreatedAt` is read from `results[0]`, which panics when no
   * branch ran at all.
   */
  function AggregateAsWritten<E>(prompt: string, os: seq<Result<GenerationResponse, E>>)
    : (r: Run<Result<ComparisonResponse, seq<E>>>)
    ensures r.Panicked? <==> |os| == 0
  {
    var c := Collect(os);
    CollectPartitions(os);
    SuccessesPlusFailures(os);
    if |c.errs| > 0 && |c.results| == 0 then Completed(Err(c.errs))
    else if |c.results| == 0 then Panicked("index out of range [0] with length 0")
    else Completed(Ok(ComparisonResponse(prompt, c.results, c.results[0].generatedAt)))
  }

  /** An empty provider list makes the source's aggregation panic. */
  lemma AsWrittenPanicsOnNoProviders<E>(prompt: string)
    ensures AggregateAsWritten<E>(prompt, []).Panicked?
  {
  }

  /**
   * The aggregation with the empty case guarded: the call fails exactly when
   * at least one branch ran and none succeeded, and then reports every branch
   * failure; otherwise it returns exactly the successes, with `CreatedAt` taken
   * from the first collected one (Go's zero time when there is none).
   */
  function Aggregate<E>(prompt: string, os: seq<Result<GenerationResponse, E>>)
    : (r: Result<ComparisonResponse, seq<E>>)
    ensures r.Err? <==> |os| > 0 && forall i :: 0 <= i < |os| ==> os[i].Err?
    ensures r.Err? ==> r.error == Failures(os) && |r.error| == |os|
    ensures r.Ok? ==> r.value.prompt == prompt && r.value.results == Successes(os)
    ensures r.Ok? && |r.value.results| > 0 ==> r.value.createdAt == r.value.results[0].generatedAt
    ensures |os| == 0 ==> r == Ok(ComparisonResponse(prompt, [], ZeroTime))
  {
    var c := Collect(os);
    CollectPartitions(os);
    SuccessesPlusFailures(os);
    NoSuccessIff(os);
    if |c.errs| > 0 && |c.results| == 0 then Err(c.errs)
    else Ok(ComparisonResponse(prompt, c.results, if |c.results| > 0 then c.results[0].generatedAt else ZeroTime))
  }

  /** Wherever the source does not panic, it agrees with the guarded aggregation. */
  lemma AsWrittenAgreesWhenProvidersGiven<E>(prompt: string, os: seq<Result<GenerationResponse, E>>)
    requires |os| > 0
    ensures AggregateAsWritten(prompt, os) == Completed(Aggregate(prompt, os))
  {
    CollectPartitions(os);
    SuccessesPlusFailures(os);
    NoSuccessIff(os);
  }

  lemma {:induction false} SuccessesCount<E>(os: seq<Result<GenerationResponse, E>>, r: GenerationResponse)
    ensures multiset(Successes(os))[r] == multiset(os)[Ok(r)]
    decreases |os|
  {
    if |os| > 0 {
      SuccessesCount(os[1..], r);
      assert os == [os[0]] + os[1..];
    }
  }

  lemma {:induction false} FailuresCount<E>(os: seq<Result<GenerationResponse, E>>, e: E)
    ensures multiset(Failures(os))[e] == multiset(os)[Err(e)]
    decreases |os|
  {
    if |os| > 0 {
      FailuresCount(os[1..], e);
      assert os == [os[0]] + os[1..];
    }
  }

  /** Permuted outcomes have permuted successes. */
  lemma PermutedSuccesses<E>(os1: seq<Result<GenerationResponse, E>>, os2: seq<Result<GenerationResponse, E>>)
    requires multiset(os1) == multiset(os2)
    ensures multiset(Successes(os1)) == multiset(Successes(os2))
  {
    forall r | true
      ensures multiset(Successes(os1))[r] == multiset(Successes(os2))[r]
    {
      SuccessesCount(os1, r);
      SuccessesCount(os2, r);
    }
  }

  /** Permuted outcomes have permuted failures. */
  lemma PermutedFailures<E(!new)>(os1: seq<Result<GenerationResponse, E>>, os2: seq<Result<GenerationResponse, E>>)
    requires multiset(os1) == multiset(os2)
    ensures multiset(Failures(os1)) == multiset(Failures(os2))
  {
    var m1, m2 := multiset(Failures(os1)), multiset(Failures(os2));
    forall e | true
      ensures m1[e] == m2[e]
    {
      FailuresCount(os1, e);
      FailuresCount(os2, e);
    }
    assert m1 == m2;
  }

  /**
   * The order in which branches complete does not matter: outcomes that are a
   * permutation of each other give the same verdict, the same results and the
   * same errors up to order.
   */
  lemma AggregateOrderIndependent<E(!new)>(prompt: string, os1: seq<Result<GenerationResponse, E>>, os2: seq<Result<GenerationResponse, E>>)
    requires multiset(os1) == multiset(os2)
    ensures Aggregate(prompt, os1).Err? <==> Aggregate(prompt, os2).Err?
    ensures Aggregate(prompt, os1).Ok? ==>
      multiset(Aggregate(prompt, os1).value.results) == multiset(Aggregate(prompt, os2).value.results)
    ensures Aggregate(prompt, os1).Err? ==>
      multiset(Aggregate(prompt, os1).error) == multiset(Aggregate(prompt, os2).error)
  {
    PermutedSuccesses(os1, os2);
    PermutedFailures(os1, os2);
    assert |os1| == |multiset(os1)| == |multiset(os2)| == |os2|;
    var s1, s2 := Successes(os1), Successes(os2);
    assert |s1| == |multiset(s1)| == |multiset(s2)| == |s2|;
    NoSuccessIff(os1);
    NoSuccessIff(os2);
  }
}
