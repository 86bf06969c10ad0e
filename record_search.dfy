/**
 * The relevant-record selection shared by the query service
 * (query-service/app/main.py) and the natural-language consultation service
 * (consulta-natural-service/app/main.py): the query is lowercased and split on
 * whitespace into terms; a record is relevant when some term occurs in the
 * lowercased, space-joined text of its values; the first five relevant
 * records, in stream order, are kept.
 */
module RecordSearch {
  import opened Base
  import opened Strings

  /** A stored record: the text `str(v)` of each of its values, in the record's own order. */
  type Record = seq<string>

  /** The most records a search returns. */
  const Limit: nat := 5

  /** `query.lower().split()`. */
  function Terms(query: string): (r: seq<string>)
    ensures forall k :: 0 <= k < |r| ==> IsWord(r[k])
    ensures r == [] <==> forall i :: 0 <= i < |query| ==> IsSpace(query[i])
  {
    var r := Words(Lower(query));
    assert r == [] <==> forall i :: 0 <= i < |query| ==> IsSpace(query[i]) by {
      assert forall i :: 0 <= i < |query| ==> (IsSpace(Lower(query)[i]) <==> IsSpace(query[i]));
    }
    r
  }

  /**
   * The terms are the whitespace-separated words of the lowercased query, in
   * order: the lowercased query is these words with whitespace between and
   * around them.
   */
  lemma TermsAreWords(query: string)
    ensures forall k :: 0 <= k < |Terms(query)| ==> IsWord(Terms(query)[k])
    ensures exists gaps :: SpacedBy(Lower(query), gaps, Terms(query))
  {
    assert Terms(query) == Words(Lower(query));
  }

  /** The lowercased values. */
  function LowerValues(rec: Record): (r: seq<string>)
    ensures |r| == |rec|
    ensures forall i :: 0 <= i < |rec| ==> r[i] == Lower(rec[i])
  {
    seq(|rec|, i requires 0 <= i < |rec| => Lower(rec[i]))
  }

  /** `" ".join(str(v).lower() for v in rec.values())`. */
  function RecordText(rec: Record): string
  {
    Join(LowerValues(rec), " ")
  }

  /** `any(term in text for term in terms)`. */
  predicate Relevant(terms: seq<string>, rec: Record)
  {
    exists k :: 0 <= k < |terms| && Contains(RecordText(rec), terms[k])
  }

  /**
   * A term has no whitespace, so it can never run across the space that
   * joins two values: a record is relevant exactly when some term occurs in
   * one of its lowercased values.
   */
  lemma RelevantByValue(query: string, rec: Record)
    ensures Relevant(Terms(query), rec)
        <==> exists k, v :: 0 <= k < |Terms(query)| && 0 <= v < |rec| && Contains(Lower(rec[v]), Terms(query)[k])
  {
    var terms := Terms(query);
    forall k | 0 <= k < |terms|
      ensures Contains(RecordText(rec), terms[k])
          <==> exists v :: 0 <= v < |rec| && Contains(Lower(rec[v]), terms[k])
    {
      assert IsWord(terms[k]);
      assert ' ' !in terms[k];
      ContainsJoin(LowerValues(rec), ' ', terms[k]);
      if exists v :: 0 <= v < |rec| && Contains(Lower(rec[v]), terms[k]) {
        var v :| 0 <= v < |rec| && Contains(Lower(rec[v]), terms[k]);
        assert Contains(LowerValues(rec)[v], terms[k]);
      }
    }
  }

  /** The relevant records among `records`, in order; built from the back, as a loop extends it. */
  function AllRelevant(records: seq<Record>, terms: seq<string>): (r: seq<Record>)
    ensures |r| <= |records|
  {
    if records == [] then []
    else
      var last := records[|records| - 1];
      AllRelevant(records[..|records| - 1], terms) + (if Relevant(terms, last) then [last] else [])
  }

  /** Scanning one more record extends the selection by that record when it is relevant. */
  lemma AllRelevantStep(records: seq<Record>, terms: seq<string>, i: nat)
    requires i < |records|
    ensures AllRelevant(records[..i + 1], terms)
      == AllRelevant(records[..i], terms) + (if Relevant(terms, records[i]) then [records[i]] else [])
  {
    assert records[..i + 1][..i] == records[..i];
  }

  /** The relevant records of a prefix are a prefix of the relevant records. */
  lemma {:induction false} AllRelevantPrefix(records: seq<Record>, terms: seq<string>, j: nat)
    requires j <= |records|
    ensures var prefix := AllRelevant(records[..j], terms);
      |prefix| <= |AllRelevant(records, terms)| && AllRelevant(records, terms)[..|prefix|] == prefix
    decreases |records|
  {
    if j < |records| {
      var init := records[..|records| - 1];
      assert records[..j] == init[..j];
      AllRelevantPrefix(init, terms, j);
    } else {
      assert records[..j] == records;
    }
  }

  /**
   * The records selected are exactly the relevant records of the list, and
   * they keep the list's order.
   */
  lemma {:induction false} AllRelevantComplete(records: seq<Record>, terms: seq<string>)
    ensures forall x :: x in AllRelevant(records, terms) <==> x in records && Relevant(terms, x)
    ensures IsSubsequence(AllRelevant(records, terms), records)
    decreases |records|
  {
    if records != [] {
      var init := records[..|records| - 1];
      var last := records[|records| - 1];
      AllRelevantComplete(init, terms);
      assert records == init + [last];
      SubsequenceSnoc(AllRelevant(init, terms), init, last);
      if Relevant(terms, last) {
        assert AllRelevant(records, terms) == AllRelevant(init, terms) + [last];
      } else {
        assert AllRelevant(records, terms) == AllRelevant(init, terms);
      }
      forall x ensures x in AllRelevant(records, terms) <==> x in records && Relevant(terms, x) {
        if x != last && x in records {
          assert x in init;
        }
      }
    }
  }

  /** Appending the same element to both keeps a subsequence, as does appending to the whole only. */
  lemma {:induction false} SubsequenceSnoc<T>(a: seq<T>, b: seq<T>, x: T)
    requires IsSubsequence(a, b)
    ensures IsSubsequence(a + [x], b + [x])
    ensures IsSubsequence(a, b + [x])
    decreases |b|
  {
    if a == [] {
      assert a + [x] == [x];
      SubsequenceOfSuffix([x], b);
    } else if b != [] {
      assert (b + [x])[1..] == b[1..] + [x];
      assert (a + [x])[1..] == a[1..] + [x];
      if a[0] == b[0] {
        SubsequenceSnoc(a[1..], b[1..], x);
      } else {
        SubsequenceSnoc(a, b[1..], x);
      }
    }
  }

  /** A list is a subsequence of itself with anything put in front. */
  lemma {:induction false} SubsequenceOfSuffix<T>(a: seq<T>, p: seq<T>)
    ensures IsSubsequence(a, p + a)
    decreases |p|
  {
    if p == [] {
      assert p + a == a;
      SubsequenceOfSelf(a);
    } else {
      SubsequenceOfSuffix(a, p[1..]);
      assert (p + a)[1..] == p[1..] + a;
      SubsequenceWeaken(a, p + a);
    }
  }

  /** `get_relevant_data`: the first `Limit` relevant records, in stream order. */
  function FirstRelevant(records: seq<Record>, terms: seq<string>): (r: seq<Record>)
    ensures |r| <= Limit
    ensures |r| <= |AllRelevant(records, terms)|
    ensures |r| < Limit <==> |AllRelevant(records, terms)| < Limit
    ensures |r| < Limit ==> r == AllRelevant(records, terms)
    ensures r == AllRelevant(records, terms)[..|r|]
  {
    var all := AllRelevant(records, terms);
    if |all| <= Limit then all else all[..Limit]
  }

  /** Once a prefix holds `Limit` relevant records, the selection is exactly those. */
  lemma FirstRelevantStops(records: seq<Record>, terms: seq<string>, j: nat)
    requires j <= |records| && |AllRelevant(records[..j], terms)| == Limit
    ensures FirstRelevant(records, terms) == AllRelevant(records[..j], terms)
  {
    AllRelevantPrefix(records, terms, j);
  }

  /**
   * One step of the scan: reading record `i` extends the selection by it when
   * it is relevant, and once that reaches `Limit` records it is the selection.
   */
  lemma ScanStep(records: seq<Record>, terms: seq<string>, i: nat, hit: bool)
    requires i < |records| && hit == Relevant(terms, records[i])
    requires |AllRelevant(records[..i], terms)| < Limit
    ensures var next := AllRelevant(records[..i], terms) + (if hit then [records[i]] else []);
      next == AllRelevant(records[..i + 1], terms)
      && (|next| >= Limit ==> next == FirstRelevant(records, terms))
  {
    AllRelevantStep(records, terms, i);
    if |AllRelevant(records[..i + 1], terms)| >= Limit {
      FirstRelevantStops(records, terms, i + 1);
    }
  }

  /**
   * What the selection promises: at most five records, each from the stream
   * and relevant, in stream order, and no relevant record is passed over
   * unless five were already taken.
   */
  lemma FirstRelevantFacts(records: seq<Record>, terms: seq<string>)
    ensures IsSubsequence(FirstRelevant(records, terms), records)
    ensures forall x :: x in FirstRelevant(records, terms) ==> Relevant(terms, x)
    ensures |FirstRelevant(records, terms)| < Limit
            ==> forall x :: x in records && Relevant(terms, x) ==> x in FirstRelevant(records, terms)
  {
    var all := AllRelevant(records, terms);
    AllRelevantComplete(records, terms);
    PrefixSubsequence(all, |FirstRelevant(records, terms)|);
    SubsequenceTrans(FirstRelevant(records, terms), all, records);
    forall x | x in FirstRelevant(records, terms) ensures Relevant(terms, x) {
      assert x in all;
    }
  }

  /** A prefix is a subsequence. */
  lemma {:induction false} PrefixSubsequence<T>(s: seq<T>, n: nat)
    requires n <= |s|
    ensures IsSubsequence(s[..n], s)
    decreases |s|
  {
    if n > 0 {
      PrefixSubsequence(s[1..], n - 1);
      assert s[..n][1..] == s[1..][..n - 1];
    }
  }

  /** Subsequences compose. */
  lemma {:induction false} SubsequenceTrans<T>(a: seq<T>, b: seq<T>, c: seq<T>)
    requires IsSubsequence(a, b) && IsSubsequence(b, c)
    ensures IsSubsequence(a, c)
    decreases |c|
  {
    if a != [] {
      if b[0] == c[0] && a[0] == b[0] {
        SubsequenceTrans(a[1..], b[1..], c[1..]);
      } else if b[0] == c[0] {
        SubsequenceTrans(a, b[1..], c[1..]);
        SubsequenceWeaken(a, c);
      } else {
        SubsequenceTrans(a, b, c[1..]);
        SubsequenceWeaken(a, c);
      }
    }
  }

  /** A blank query has no terms and selects nothing. */
  lemma BlankQuerySelectsNothing(query: string, records: seq<Record>)
    requires forall i :: 0 <= i < |query| ==> IsSpace(query[i])
    ensures FirstRelevant(records, Terms(query)) == []
  {
    NothingRelevant(records, Terms(query));
  }

  lemma {:induction false} NothingRelevant(records: seq<Record>, terms: seq<string>)
    requires terms == []
    ensures AllRelevant(records, terms) == []
    decreases |records|
  {
    if records != [] {
      NothingRelevant(records[..|records| - 1], terms);
    }
  }

  /** `relevant_data or None`: an empty selection is sent as `None`. */
  function OrNone(data: seq<Record>): (r: Option<seq<Record>>)
    ensures r.None? <==> data == []
    ensures r.Some? ==> r.value == data
  {
    if data == [] then None else Some(data)
  }

  /** The response body of both services. */
  datatype QueryResponse = QueryResponse(answer: string, relevantData: Option<seq<Record>>)

  /**
   * The answer generator: the language-model call, given the query and the
   * selected records; it may raise, with the exception's text.
   */
  type Generator = (string, seq<Record>) -> Result<string, string>
}
