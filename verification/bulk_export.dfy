/**
 * Bulk export: the queued files are rendered in consecutive batches of four;
 * each file with a decoded buffer yields one tagged WAV entry, files without
 * one are skipped, a progress update follows every batch, and the entries are
 * zipped at the end.  One failed render aborts the whole export.
 */
module BulkExport {
  import opened Wrappers
  import opened Numeric

  const BatchSize: nat := 4

  /** What rendering one file's buffer produces: the WAV bytes, or an exception. */
  datatype Render = Rendered(wav: seq<int>) | Throws

  /** A queued file; `render` is `None` when the file has no decoded buffer. */
  datatype BulkFile = BulkFile(name: string, render: Option<Render>)

  datatype Entry = Entry(name: string, wav: seq<int>)

  /** One progress update: files covered so far, and the rounded percentage. */
  datatype Update = Update(done: nat, percent: int)

  datatype Outcome =
    | NothingToExport
    | Failed(updates: seq<Update>)
    | Zipped(entries: seq<Entry>, updates: seq<Update>)

  /** The archive name of a tagged file. */
  function EntryName(name: string): (r: string)
    ensures |r| == |name| + 11
    ensures r[..7] == "TAGGED_" && r[|r| - 4..] == ".wav" && r[7..|r| - 4] == name
  {
    "TAGGED_" + name + ".wav"
  }

  predicate Fails(f: BulkFile) {
    f.render == Some(Throws)
  }

  predicate AnyFails(files: seq<BulkFile>) {
    exists i :: 0 <= i < |files| && Fails(files[i])
  }

  /** The entries of a run in which nothing fails: one per rendered file, in order. */
  function Entries(files: seq<BulkFile>): (es: seq<Entry>)
    ensures |es| <= |files|
  {
    if |files| == 0 then []
    else
      var f := files[|files| - 1];
      var init := Entries(files[..|files| - 1]);
      match f.render
      case Some(Rendered(w)) => init + [Entry(EntryName(f.name), w)]
      case _ => init
  }

  lemma {:induction false} EntriesAppend(a: seq<BulkFile>, b: seq<BulkFile>)
    ensures Entries(a + b) == Entries(a) + Entries(b)
    decreases |b|
  {
    if |b| == 0 {
      assert a + b == a;
    } else {
      var b' := b[..|b| - 1];
      EntriesAppend(a, b');
      assert (a + b)[..|a + b| - 1] == a + b';
    }
  }

  /** Files without a buffer contribute nothing; rendered files contribute themselves, in order. */
  lemma EntriesOfRendered(files: seq<BulkFile>)
    requires forall i :: 0 <= i < |files| ==> files[i].render.Some? && files[i].render.value.Rendered?
    ensures |Entries(files)| == |files|
    ensures forall i :: 0 <= i < |files| ==>
      Entries(files)[i] == Entry(EntryName(files[i].name), files[i].render.value.wav)
  {
    if |files| > 0 {
      EntriesOfRendered(files[..|files| - 1]);
    }
  }

  lemma EntriesSkipMissing(files: seq<BulkFile>)
    requires forall i :: 0 <= i < |files| ==> files[i].render == None
    ensures Entries(files) == []
  {
    if |files| > 0 {
      EntriesSkipMissing(files[..|files| - 1]);
    }
  }

  /** `done / total` as a number. */
  function Ratio(done: nat, total: nat): (q: real)
    requires 0 < total && done <= total
    ensures 0.0 <= q <= 1.0
    ensures done == total ==> q == 1.0
  {
    DivMonotone(0.0, done as real, total as real);
    DivMonotone(done as real, total as real, total as real);
    done as real / total as real
  }

  lemma RatioMonotone(a: nat, b: nat, total: nat)
    requires 0 < total && a <= b <= total
    ensures Ratio(a, total) <= Ratio(b, total)
  {
    DivMonotone(a as real, b as real, total as real);
  }

  /** `Math.round(done / total * 100)`. */
  function Percent(done: nat, total: nat): (p: int)
    requires 0 < total && done <= total
    ensures 0 <= p <= 100
    ensures done == total ==> p == 100
  {
    JsRound(Ratio(done, total) * 100.0)
  }

  lemma PercentMonotone(a: nat, b: nat, total: nat)
    requires 0 < total && a <= b <= total
    ensures Percent(a, total) <= Percent(b, total)
  {
    RatioMonotone(a, b, total);
  }

  /** Files covered once `k` batches are done. */
  function Covered(k: nat, total: nat): (c: nat)
    ensures c <= total
  {
    if BatchSize * k < total then BatchSize * k else total
  }

  /** Number of batches for `total` files. */
  function BatchCount(total: nat): (b: nat)
    ensures Covered(b, total) == total
    ensures b > 0 ==> Covered(b - 1, total) < total
  {
    (total + BatchSize - 1) / BatchSize
  }

  /** The number of batches is the least `b` with `4 * b >= total`. */
  lemma BatchCountUnique(b: nat, total: nat)
    requires BatchSize * b >= total && BatchSize * b < total + BatchSize
    ensures b == BatchCount(total)
  {
  }

  /** The updates shown after each of the first `k` batches. */
  function Updates(k: nat, total: nat): (us: seq<Update>)
    requires total > 0
    ensures |us| == k
    ensures forall j :: 0 <= j < k ==> us[j] == Update(Covered(j + 1, total), Percent(Covered(j + 1, total), total))
  {
    seq(k, j requires 0 <= j < k => Update(Covered(j + 1, total), Percent(Covered(j + 1, total), total)))
  }

  /** The updates of a complete run end at all files and 100 percent, and never go backwards. */
  lemma UpdatesComplete(total: nat)
    requires total > 0
    ensures var us := Updates(BatchCount(total), total);
      && |us| >= 1
      && us[|us| - 1] == Update(total, 100)
      && forall i, j :: 0 <= i <= j < |us| ==> us[i].done <= us[j].done && us[i].percent <= us[j].percent
  {
    var us := Updates(BatchCount(total), total);
    forall i, j | 0 <= i <= j < |us| ensures us[i].done <= us[j].done && us[i].percent <= us[j].percent {
      PercentMonotone(Covered(i + 1, total), Covered(j + 1, total), total);
    }
  }

  /** The first failing file. */
  function FirstFailure(files: seq<BulkFile>): (k: nat)
    requires AnyFails(files)
    ensures k < |files| && Fails(files[k])
    ensures forall i :: 0 <= i < k ==> !Fails(files[i])
  {
    if Fails(files[0]) then 0
    else
      assert AnyFails(files[1..]) by {
        var i :| 0 <= i < |files| && Fails(files[i]);
        assert files[1..][i - 1] == files[i];
      }
      1 + FirstFailure(files[1..])
  }

  /** Batch number `b`: the next four files, or the rest. */
  function Batch(files: seq<BulkFile>, b: nat): (batch: seq<BulkFile>)
    requires BatchSize * b < |files|
    ensures 0 < |batch| <= BatchSize
    ensures BatchSize * b + |batch| == Covered(b + 1, |files|)
  {
    files[BatchSize * b..Covered(b + 1, |files|)]
  }

  /**
   * `handleBulkExport` run sequentially: an empty queue does nothing; each
   * batch either aborts the export (some render throws) or adds its entries
   * and posts a progress update.
   */
  method BulkExportRun(files: seq<BulkFile>) returns (out: Outcome)
    ensures |files| == 0 <==> out == NothingToExport
    ensures out.Failed? <==> AnyFails(files)
    ensures out.Zipped? ==> out.entries == Entries(files) && out.updates == Updates(BatchCount(|files|), |files|)
    ensures out.Failed? ==> out.updates == Updates(FirstFailure(files) / BatchSize, |files|)
  {
    var n := |files|;
    if n == 0 {
      return NothingToExport;
    }
    var entries: seq<Entry> := [];
    var updates: seq<Update> := [];
    var i, k := 0, 0;
    assert files[..0] == [];
    while i < n
      invariant i == BatchSize * k && i < n + BatchSize
      invariant Covered(k, n) == if i < n then i else n
      invariant !AnyFails(files[..Covered(k, n)])
      invariant entries == Entries(files[..Covered(k, n)])
      invariant updates == Updates(k, n)
      decreases n - i
    {
      var batch := if i + BatchSize <= n then files[i..i + BatchSize] else files[i..];
      assert batch == Batch(files, k);
      var hi := i + |batch|;
      if AnyFails(batch) {
        FailureInBatch(files, k);
        return Failed(updates);
      }
      BatchStep(files, k);
      UpdatesStep(k, n);
      entries := entries + Entries(batch);
      updates := updates + [Update(hi, Percent(hi, n))];
      i, k := i + BatchSize, k + 1;
    }
    assert files[..n] == files;
    BatchCountUnique(k, n);
    return Zipped(entries, updates);
  }

  /** A batch extends the covered files: its entries follow theirs, and with no failure in either, none in the whole. */
  lemma BatchStep(files: seq<BulkFile>, b: nat)
    requires BatchSize * b < |files|
    ensures Entries(files[..Covered(b + 1, |files|)]) == Entries(files[..Covered(b, |files|)]) + Entries(Batch(files, b))
    ensures !AnyFails(files[..Covered(b, |files|)]) && !AnyFails(Batch(files, b)) ==> !AnyFails(files[..Covered(b + 1, |files|)])
  {
    var i := BatchSize * b;
    assert files[..Covered(b + 1, |files|)] == files[..i] + Batch(files, b);
    EntriesAppend(files[..i], Batch(files, b));
    NoFailureAppend(files[..i], Batch(files, b));
  }

  /** One more batch appends one update and leaves the earlier ones alone. */
  lemma UpdatesStep(b: nat, total: nat)
    requires total > 0
    ensures Updates(b + 1, total) == Updates(b, total) + [Update(Covered(b + 1, total), Percent(Covered(b + 1, total), total))]
  {
  }

  lemma NoFailureAppend(a: seq<BulkFile>, b: seq<BulkFile>)
    ensures !AnyFails(a) && !AnyFails(b) ==> !AnyFails(a + b)
  {
    if !AnyFails(a) && !AnyFails(b) {
      forall k | 0 <= k < |a + b| ensures !Fails((a + b)[k]) {
        if k < |a| {
          assert (a + b)[k] == a[k];
        } else {
          assert (a + b)[k] == b[k - |a|];
        }
      }
    }
  }

  /** A failure inside batch `b`, with none before it, places the first failure in that batch. */
  lemma FailureInBatch(files: seq<BulkFile>, b: nat)
    requires BatchSize * b < |files|
    requires !AnyFails(files[..BatchSize * b])
    requires AnyFails(Batch(files, b))
    ensures AnyFails(files) && FirstFailure(files) / BatchSize == b
  {
    var i := BatchSize * b;
    var batch := Batch(files, b);
    assert i + |batch| <= |files|;
    var k :| 0 <= k < |batch| && Fails(batch[k]);
    BatchIndex(files, b, k);
    var f := FirstFailure(files);
    assert f <= i + k;
    NoFailureBefore(files, i);
    BatchOf(b, f);
  }

  lemma NoFailureBefore(files: seq<BulkFile>, i: nat)
    requires i <= |files| && !AnyFails(files[..i])
    ensures forall j :: 0 <= j < i ==> !Fails(files[j])
  {
    forall j | 0 <= j < i ensures !Fails(files[j]) {
      assert files[..i][j] == files[j];
    }
  }

  lemma BatchIndex(files: seq<BulkFile>, b: nat, k: nat)
    requires BatchSize * b < |files| && k < |Batch(files, b)|
    ensures Batch(files, b)[k] == files[BatchSize * b + k]
  {
  }

  lemma BatchOf(b: nat, f: nat)
    requires BatchSize * b <= f < BatchSize * b + BatchSize
    ensures f / BatchSize == b
  {
  }
}
