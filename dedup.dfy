/** Restricting to export/import rows and dropping repeated observations
    (data_preparation.py:53-55, prepare_growth_data.py:48-50). */
module Dedup {
  import opened Seqs
  import opened Records

  function IsTradeFlow(r: TradeRow): bool {
    r.flowCode == Export || r.flowCode == Import
  }

  /** `trade_df[trade_df.flowCode.isin(["X","M"])]` */
  function FilterFlows(rows: seq<TradeRow>): (r: seq<TradeRow>)
    ensures forall i :: 0 <= i < |r| ==> r[i].flowCode == Export || r[i].flowCode == Import
    ensures forall i :: 0 <= i < |rows| && IsTradeFlow(rows[i]) ==> rows[i] in r
    ensures IsSubseq(r, rows)
    ensures forall x :: multiset(r)[x] == if IsTradeFlow(x) then multiset(rows)[x] else 0
  {
    FilterCounts(rows, IsTradeFlow);
    Filter(rows, IsTradeFlow)
  }

  function KeysOf(s: seq<TradeRow>): set<TradeKey> {
    set x | x in s :: KeyOf(x)
  }

  lemma KeysOfSnoc(s: seq<TradeRow>, x: TradeRow)
    ensures KeysOf(s + [x]) == KeysOf(s) + {KeyOf(x)}
  {
    assert forall y :: y in s + [x] <==> y in s || y == x;
  }

  /** Row `i` is the first row of `s` with its key. */
  ghost predicate FirstOfKey(s: seq<TradeRow>, i: int)
    requires 0 <= i < |s|
  {
    forall j :: 0 <= j < i ==> KeyOf(s[j]) != KeyOf(s[i])
  }

  /** `drop_duplicates(["year","partnerCode","cmdCode","flowCode"])`, keeping the first
      row of each key. */
  function KeepFirst(s: seq<TradeRow>): (r: seq<TradeRow>)
    ensures IsSubseq(r, s)
    ensures UniqueKeys(r, KeyOf)
    ensures KeysOf(r) == KeysOf(s)
    decreases |s|
  {
    if |s| == 0 then []
    else
      var init := KeepFirst(s[..|s| - 1]);
      var last := s[|s| - 1];
      assert s == s[..|s| - 1] + [last];
      KeysOfSnoc(s[..|s| - 1], last);
      if KeyOf(last) in KeysOf(init) then init
      else
        var r := init + [last];
        assert r[..|r| - 1] == init;
        KeysOfSnoc(init, last);
        r
  }

  /** Every first occurrence of a key is kept. */
  lemma {:induction false} KeepFirstKeepsFirsts(s: seq<TradeRow>)
    ensures forall i :: 0 <= i < |s| && FirstOfKey(s, i) ==> s[i] in KeepFirst(s)
    decreases |s|
  {
    if |s| > 0 {
      var n := |s| - 1;
      var s' := s[..n];
      KeepFirstKeepsFirsts(s');
      forall i | 0 <= i < |s| && FirstOfKey(s, i)
        ensures s[i] in KeepFirst(s)
      {
        if i < n {
          assert s'[i] == s[i];
          assert FirstOfKey(s', i);
        } else {
          assert KeyOf(s[n]) !in KeysOf(s');
        }
      }
    }
  }

  /** Being first with its key in a prefix is being first with its key in the whole table. */
  lemma FirstOfKeyPrefix(s: seq<TradeRow>, n: nat, i: nat)
    requires i < n <= |s| && FirstOfKey(s[..n], i)
    ensures s[i] == s[..n][i] && FirstOfKey(s, i)
  {
    forall j | 0 <= j < i
      ensures KeyOf(s[j]) != KeyOf(s[i])
    {
      assert s[..n][j] == s[j];
    }
  }

  /** Only first occurrences are kept: each kept row is the first row of the input with its key. */
  lemma {:induction false} KeepFirstOnlyFirsts(s: seq<TradeRow>)
    ensures forall x :: x in KeepFirst(s) ==> exists i :: 0 <= i < |s| && s[i] == x && FirstOfKey(s, i)
    decreases |s|
  {
    if |s| > 0 {
      var n := |s| - 1;
      var s' := s[..n];
      KeepFirstOnlyFirsts(s');
      var k := KeepFirst(s');
      if KeyOf(s[n]) in KeysOf(k) {
        assert KeepFirst(s) == k;
        forall x | x in k
          ensures exists i :: 0 <= i < |s| && s[i] == x && FirstOfKey(s, i)
        {
          var i :| 0 <= i < |s'| && s'[i] == x && FirstOfKey(s', i);
          FirstOfKeyPrefix(s, n, i);
        }
      } else {
        assert KeepFirst(s) == k + [s[n]];
        assert FirstOfKey(s, n);
        forall x | x in k + [s[n]]
          ensures exists i :: 0 <= i < |s| && s[i] == x && FirstOfKey(s, i)
        {
          if x in k {
            var i :| 0 <= i < |s'| && s'[i] == x && FirstOfKey(s', i);
            FirstOfKeyPrefix(s, n, i);
          } else {
            assert s[n] == x;
          }
        }
      }
    }
  }

  /** A table whose keys are already unique is left as it is. */
  lemma {:induction false} KeepFirstOfUnique(s: seq<TradeRow>)
    requires UniqueKeys(s, KeyOf)
    ensures KeepFirst(s) == s
    decreases |s|
  {
    if |s| > 0 {
      var n := |s| - 1;
      KeepFirstOfUnique(s[..n]);
      assert s == s[..n] + [s[n]];
      assert KeyOf(s[n]) !in KeysOf(s[..n]);
    }
  }

  /** Deduplicating a second time removes nothing. */
  lemma KeepFirstIdempotent(s: seq<TradeRow>)
    ensures KeepFirst(KeepFirst(s)) == KeepFirst(s)
  {
    KeepFirstOfUnique(KeepFirst(s));
  }

  /** `out` is the deduplication of the first `i` rows and `seen` holds its keys. */
  ghost predicate DedupedUpTo(rows: seq<TradeRow>, i: nat, out: seq<TradeRow>, seen: set<TradeKey>)
    requires i <= |rows|
  {
    out == KeepFirst(rows[..i]) && seen == KeysOf(out)
  }

  /** One more row is kept exactly when its key has not been seen. */
  lemma DedupStep(rows: seq<TradeRow>, i: nat, out: seq<TradeRow>, seen: set<TradeKey>)
    requires i < |rows| && DedupedUpTo(rows, i, out, seen)
    ensures KeyOf(rows[i]) in seen ==> DedupedUpTo(rows, i + 1, out, seen)
    ensures KeyOf(rows[i]) !in seen ==> DedupedUpTo(rows, i + 1, out + [rows[i]], seen + {KeyOf(rows[i])})
  {
    assert rows[..i + 1][..i] == rows[..i];
    KeysOfSnoc(out, rows[i]);
  }

  /** The deduplication loop: one pass with the set of keys seen so far. */
  method DropDuplicates(rows: seq<TradeRow>) returns (out: seq<TradeRow>)
    ensures out == KeepFirst(rows)
  {
    var seen: set<TradeKey> := {};
    out := [];
    var i := 0;
    while i < |rows|
      invariant 0 <= i <= |rows|
      invariant DedupedUpTo(rows, i, out, seen)
    {
      var row := rows[i];
      DedupStep(rows, i, out, seen);
      if KeyOf(row) !in seen {
        out := out + [row];
        seen := seen + {KeyOf(row)};
      }
      i := i + 1;
    }
    assert rows[..|rows|] == rows;
  }
}
