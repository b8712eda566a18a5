/** Aggregation of judged criteria and checked claims into percentage scores,
    the validation of the keyword arguments a data source needs, and the
    scaled thresholds the criteria and claim checks compare against. */
module Scoring {

  import opened Common
  import opened Text
  import opened DataSources

  /** The number of elements of `xs` that satisfy `p`. */
  function Count<T>(xs: seq<T>, p: T -> bool): (r: nat)
    ensures r <= |xs|
  {
    if |xs| == 0 then 0
    else Count(xs[..|xs| - 1], p) + (if p(xs[|xs| - 1]) then 1 else 0)
  }

  /** Counting agrees on two sequences that agree element by element. */
  lemma {:induction false} CountAgrees<A, B>(xs: seq<A>, p: A -> bool, ys: seq<B>, q: B -> bool)
    requires |xs| == |ys|
    requires forall i :: 0 <= i < |xs| ==> p(xs[i]) == q(ys[i])
    ensures Count(xs, p) == Count(ys, q)
  {
    if |xs| > 0 {
      CountAgrees(xs[..|xs| - 1], p, ys[..|ys| - 1], q);
    }
  }

  /** Every element counts exactly when the count is the length, and none
      does exactly when the count is zero. */
  lemma {:induction false} CountExtremes<T>(xs: seq<T>, p: T -> bool)
    ensures Count(xs, p) == |xs| <==> forall i :: 0 <= i < |xs| ==> p(xs[i])
    ensures Count(xs, p) == 0 <==> forall i :: 0 <= i < |xs| ==> !p(xs[i])
  {
    if |xs| > 0 {
      var init := xs[..|xs| - 1];
      CountExtremes(init, p);
      assert forall i :: 0 <= i < |init| ==> init[i] == xs[i];
    }
  }

  /** `k / n * 100`. For `k` of `n` it lies in `[0, 100]`, is 100 exactly
      when all count and 0 exactly when none does. */
  function Percent(k: nat, n: nat): (r: real)
    requires n > 0
    ensures k <= n ==> 0.0 <= r <= 100.0
    ensures r == 100.0 <==> k == n
    ensures r == 0.0 <==> k == 0
  {
    k as real / n as real * 100.0
  }

  /** `(explicit ?? instance ?? default) * 100`: a threshold given as a
      fraction, scaled to the percentage the scores use. */
  function ScaledThreshold(explicit: Option<real>, instance: Option<real>, default: real): (r: real)
    ensures explicit.Some? ==> r == explicit.value * 100.0
    ensures explicit.None? && instance.Some? ==> r == instance.value * 100.0
    ensures explicit.None? && instance.None? ==> r == default * 100.0
  {
    FirstPresent(explicit, instance, Some(default)).value * 100.0
  }

  // ----- criteria check -----

  /** One criterion and the judge's verdict on it. */
  datatype CriterionDetail = CriterionDetail(criterion: string, result: bool)

  datatype CriteriaResult = CriteriaResult(score: real, content: string, criteria: seq<CriterionDetail>)

  predicate IsTrue(b: bool) { b }

  predicate Passed(d: CriterionDetail) { d.result }

  /** What judging `content` against `criteria` yields, where
      `judge(criterion, content)` is the language model's verdict. */
  function CriteriaScoreOf(content: string, criteria: seq<string>, judge: (string, string) -> bool)
    : (r: Result<CriteriaResult>)
    ensures r.Ok? <==> |criteria| > 0
    ensures r.Err? ==> r.error == ZeroDivision
    ensures r.Ok? ==> r.value.content == content && |r.value.criteria| == |criteria|
    ensures r.Ok? ==> forall i :: 0 <= i < |criteria| ==>
              r.value.criteria[i] == CriterionDetail(criteria[i], judge(criteria[i], content))
    ensures r.Ok? ==> r.value.score == Percent(Count(r.value.criteria, Passed), |criteria|)
    ensures r.Ok? ==> 0.0 <= r.value.score <= 100.0
    ensures r.Ok? ==> (r.value.score == 100.0 <==> forall i :: 0 <= i < |criteria| ==> judge(criteria[i], content))
    ensures r.Ok? ==> (r.value.score == 0.0 <==> forall i :: 0 <= i < |criteria| ==> !judge(criteria[i], content))
  {
    var n := |criteria|;
    var results := seq(n, i requires 0 <= i < n => judge(criteria[i], content));
    if n == 0 then Err(ZeroDivision)
    else
      var details := seq(n, i requires 0 <= i < n => CriterionDetail(criteria[i], results[i]));
      CountAgrees(results, IsTrue, details, Passed);
      CountExtremes(results, IsTrue);
      Ok(CriteriaResult(Percent(Count(results, IsTrue), n), content, details))
  }

  /** `_criteria_check_handler`: ask the judge once per criterion, in order,
      collecting the verdicts, then score them. */
  method CriteriaCheckHandler(content: string, criteria: seq<string>, judge: (string, string) -> bool)
    returns (r: Result<CriteriaResult>)
    ensures r == CriteriaScoreOf(content, criteria, judge)
  {
    var results: seq<bool> := [];
    for i := 0 to |criteria|
      invariant |results| == i
      invariant forall j :: 0 <= j < i ==> results[j] == judge(criteria[j], content)
    {
      results := results + [judge(criteria[i], content)];
    }
    var n := |criteria|;
    if n == 0 {
      return Err(ZeroDivision);
    }
    var totalScore := Percent(Count(results, IsTrue), n);
    var details := seq(n, i requires 0 <= i < n => CriterionDetail(criteria[i], results[i]));
    assert results == seq(n, i requires 0 <= i < n => judge(criteria[i], content));
    r := Ok(CriteriaResult(totalScore, content, details));
  }

  // ----- claim check -----

  /** One extracted claim and the checker's verdict on it. */
  datatype ClaimVerdict = ClaimVerdict(claim: string, validity: bool)

  datatype ClaimResult = ClaimResult(totalScore: real, content: Option<string>, claims: seq<ClaimVerdict>)

  predicate IsValid(v: ClaimVerdict) { v.validity }

  /** A keyword argument as the data-source check sees it: `None` (also what
      an absent keyword reads as), a string, or any other object, which only
      matters through its truth value. */
  datatype ArgValue = NoneValue | StrValue(s: string) | ObjectValue(truthy: bool)

  /** `kwargs.get(k)`. */
  function Lookup(kwargs: map<string, ArgValue>, k: string): ArgValue {
    if k in kwargs then kwargs[k] else NoneValue
  }

  /** `not v or (isinstance(v, str) and not v.strip())`. */
  predicate IsMissing(v: ArgValue) {
    match v
    case NoneValue => true
    case StrValue(s) => s == [] || Strip(s, StrSpaces) == []
    case ObjectValue(truthy) => !truthy
  }

  /** `None` and falsy objects are missing; a string is missing exactly
      when it is blank, every character whitespace. */
  lemma IsMissingCases(v: ArgValue)
    ensures v.NoneValue? ==> IsMissing(v)
    ensures v.StrValue? ==> (IsMissing(v) <==> forall i :: 0 <= i < |v.s| ==> IsSpace(StrSpaces, v.s[i]))
    ensures v.ObjectValue? ==> (IsMissing(v) <==> !v.truthy)
  {
    if v.StrValue? {
      StripBlank(v.s, StrSpaces);
    }
  }

  /** No element of `s` occurs twice. */
  predicate Distinct(s: seq<string>) {
    forall i, j :: 0 <= i < j < |s| ==> s[i] != s[j]
  }

  /** The keys of `keys`, in order, whose argument is missing. */
  function Missing(keys: seq<string>, kwargs: map<string, ArgValue>): (r: seq<string>)
    ensures |r| <= |keys|
  {
    if |keys| == 0 then []
    else Missing(keys[..|keys| - 1], kwargs) + (if IsMissing(Lookup(kwargs, keys[|keys| - 1])) then [keys[|keys| - 1]] else [])
  }

  /** A key is listed exactly when it is required and its argument is missing. */
  lemma {:induction false} MissingMembers(keys: seq<string>, kwargs: map<string, ArgValue>)
    ensures forall k :: k in Missing(keys, kwargs) <==> k in keys && IsMissing(Lookup(kwargs, k))
  {
    if |keys| > 0 {
      var init, k := keys[..|keys| - 1], keys[|keys| - 1];
      MissingMembers(init, kwargs);
      assert Missing(keys, kwargs) == Missing(init, kwargs) + (if IsMissing(Lookup(kwargs, k)) then [k] else []);
      assert forall x :: x in keys <==> x in init || x == k by {
        assert keys == init + [k];
      }
    }
  }

  /** Required keys without duplicates are listed without duplicates. */
  lemma {:induction false} MissingDistinct(keys: seq<string>, kwargs: map<string, ArgValue>)
    requires Distinct(keys)
    ensures Distinct(Missing(keys, kwargs))
  {
    if |keys| > 0 {
      var init, k := keys[..|keys| - 1], keys[|keys| - 1];
      assert Distinct(init) by {
        assert forall i :: 0 <= i < |init| ==> init[i] == keys[i];
      }
      MissingDistinct(init, kwargs);
      MissingMembers(init, kwargs);
      assert k !in init;
      var m := Missing(init, kwargs);
      var r := Missing(keys, kwargs);
      assert r == m + (if IsMissing(Lookup(kwargs, k)) then [k] else []);
      assert forall i :: 0 <= i < |m| ==> m[i] != k by {
        assert forall i :: 0 <= i < |m| ==> m[i] in m;
      }
      forall i, j | 0 <= i < j < |r|
        ensures r[i] != r[j]
      {
        if j < |m| {
          assert r[i] == m[i] && r[j] == m[j];
        } else {
          assert r[i] == m[i] && r[j] == k;
        }
      }
    }
  }


  /** Adding one key at the end adds it at the end of the list when its
      argument is missing. */
  lemma MissingSnoc(keys: seq<string>, k: string, kwargs: map<string, ArgValue>)
    ensures Missing(keys + [k], kwargs) == Missing(keys, kwargs) + (if IsMissing(Lookup(kwargs, k)) then [k] else [])
  {
  }

  /** Missing arguments are listed in the order they are required: the
      list for `a + b` is the list for `a` followed by the list for `b`. */
  lemma {:induction false} MissingAppend(a: seq<string>, b: seq<string>, kwargs: map<string, ArgValue>)
    ensures Missing(a + b, kwargs) == Missing(a, kwargs) + Missing(b, kwargs)
  {
    if |b| == 0 {
      assert a + b == a;
    } else {
      var init, k := b[..|b| - 1], b[|b| - 1];
      MissingAppend(a, init, kwargs);
      assert a + b == (a + init) + [k];
      assert b == init + [k];
      MissingSnoc(a + init, k, kwargs);
      MissingSnoc(init, k, kwargs);
    }
  }

  /** `_collect_args`: the required arguments of `source`, or a ValueError
      naming, in order, every one that is absent, falsy or blank. */
  function CollectArgs(source: DataSource, kwargs: map<string, ArgValue>): (r: Result<map<string, ArgValue>>)
    ensures r.Err? <==> exists k :: k in RequiredArgs(source) && IsMissing(Lookup(kwargs, k))
    ensures r.Err? ==> r.error == MissingArgs(Name(source), Missing(RequiredArgs(source), kwargs))
    ensures r.Err? ==> |r.error.missing| > 0 && Distinct(r.error.missing)
    ensures r.Ok? ==> forall k :: k in r.value <==> k in RequiredArgs(source)
    ensures r.Ok? ==> forall k :: k in r.value ==> k in kwargs && r.value[k] == kwargs[k] && !IsMissing(kwargs[k])
  {
    var required := RequiredArgs(source);
    var args := map k | k in required :: Lookup(kwargs, k);
    var missing := Missing(required, kwargs);
    MissingMembers(required, kwargs);
    MissingDistinct(required, kwargs);
    if |missing| > 0 then
      assert missing[0] in missing;
      Err(MissingArgs(Name(source), missing))
    else
      Ok(args)
  }

  /** What `_claim_check_handler` yields once the checker has returned its
      verdicts: the arguments are validated first, then the share of valid
      claims is scored. */
  function ClaimCheckOf(content: Option<string>, source: DataSource, kwargs: map<string, ArgValue>,
                        verdicts: seq<ClaimVerdict>): (r: Result<ClaimResult>)
    ensures CollectArgs(source, kwargs).Err? ==> r == Err(CollectArgs(source, kwargs).error)
    ensures CollectArgs(source, kwargs).Ok? ==> (r.Ok? <==> |verdicts| > 0)
    ensures CollectArgs(source, kwargs).Ok? && r.Err? ==> r.error == ZeroDivision
    ensures r.Ok? ==> r.value.content == content && r.value.claims == verdicts
    ensures r.Ok? ==> r.value.totalScore == Percent(Count(verdicts, IsValid), |verdicts|)
    ensures r.Ok? ==> 0.0 <= r.value.totalScore <= 100.0
    ensures r.Ok? ==> (r.value.totalScore == 100.0 <==> forall i :: 0 <= i < |verdicts| ==> verdicts[i].validity)
    ensures r.Ok? ==> (r.value.totalScore == 0.0 <==> forall i :: 0 <= i < |verdicts| ==> !verdicts[i].validity)
  {
    match CollectArgs(source, kwargs)
    case Err(e) => Err(e)
    case Ok(_) =>
      if |verdicts| == 0 then Err(ZeroDivision)
      else
        CountExtremes(verdicts, IsValid);
        Ok(ClaimResult(Percent(Count(verdicts, IsValid), |verdicts|), content, verdicts))
  }

  /** `_claim_check_handler`: validate the data-source arguments, then count
      the valid verdicts one by one and turn the count into a percentage.
      Claim extraction, fetching and checking are external; `verdicts` is
      what the checker returned. */
  method ClaimCheckHandler(content: Option<string>, source: DataSource, kwargs: map<string, ArgValue>,
                           verdicts: seq<ClaimVerdict>) returns (r: Result<ClaimResult>)
    ensures r == ClaimCheckOf(content, source, kwargs, verdicts)
  {
    var args := CollectArgs(source, kwargs);
    if args.Err? {
      return Err(args.error);
    }
    var score: nat := 0;
    for i := 0 to |verdicts|
      invariant score == Count(verdicts[..i], IsValid)
    {
      assert verdicts[..i + 1][..i] == verdicts[..i];
      if verdicts[i].validity {
        score := score + 1;
      }
    }
    assert verdicts[..|verdicts|] == verdicts;
    if |verdicts| == 0 {
      return Err(ZeroDivision);
    }
    r := Ok(ClaimResult(Percent(score, |verdicts|), content, verdicts));
  }
}
