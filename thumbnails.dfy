/** Thumbnail collection (src/services/generate-thumbnails.ts): one
    generator call per requested orientation, awaited together, then the
    falsy results (`undefined` or "") dropped. */
module Thumbnails {
  import opened Wrappers
  import opened Types

  /** The image generator's `generateThumbnail(title, orientation)`, reduced to
      how its promise settles and the `mediaSrc` it resolves with. */
  type Generator = (string, Orientation) -> Settled<Option<string>>

  /** `Promise.all(formats.map(...))`: the per-format results in format order,
      or a rejection when any call rejects. */
  function AwaitAll(title: string, formats: seq<Orientation>, gen: Generator): (r: Settled<seq<Option<string>>>)
    ensures r.Resolved? <==> forall i :: 0 <= i < |formats| ==> gen(title, formats[i]).Resolved?
    ensures r.Resolved? ==>
              |r.value| == |formats| && forall i :: 0 <= i < |formats| ==> r.value[i] == gen(title, formats[i]).value
    decreases |formats|
  {
    if formats == [] then Resolved([])
    else
      var head := gen(title, formats[0]);
      var tail := AwaitAll(title, formats[1..], gen);
      if head.Rejected? || tail.Rejected? then Rejected
      else Resolved([head.value] + tail.value)
  }

  /** `filter(Boolean)` on the resolved `mediaSrc` values. */
  function KeepTruthy(xs: seq<Option<string>>): (r: seq<string>)
    ensures |r| <= |xs|
    ensures forall i :: 0 <= i < |r| ==> r[i] != ""
    decreases |xs|
  {
    if xs == [] then []
    else (if Truthy(xs[0]) then [xs[0].value] else []) + KeepTruthy(xs[1..])
  }

  /** generateThumbnails(title, formats). */
  function GenerateThumbnails(title: string, formats: seq<Orientation>, gen: Generator): (r: Settled<seq<string>>)
    ensures r.Resolved? <==> forall i :: 0 <= i < |formats| ==> gen(title, formats[i]).Resolved?
    ensures r.Resolved? ==> |r.value| <= |formats| && forall i :: 0 <= i < |r.value| ==> r.value[i] != ""
  {
    var all := AwaitAll(title, formats, gen);
    if all.Rejected? then Rejected else Resolved(KeepTruthy(all.value))
  }

  /** The positions of the truthy entries, in increasing order. */
  function TruthyIndices(xs: seq<Option<string>>): seq<nat>
    decreases |xs|
  {
    if xs == [] then []
    else (if Truthy(xs[0]) then [0] else []) + Shift(TruthyIndices(xs[1..]))
  }

  function Shift(ks: seq<nat>): (r: seq<nat>)
    ensures |r| == |ks| && forall j :: 0 <= j < |ks| ==> r[j] == ks[j] + 1
  {
    seq(|ks|, j requires 0 <= j < |ks| => ks[j] + 1)
  }

  /** The j-th kept value is the entry at the j-th truthy position. */
  lemma {:induction false} KeepTruthyAt(xs: seq<Option<string>>)
    ensures var ks := TruthyIndices(xs);
      |KeepTruthy(xs)| == |ks|
      && forall j :: 0 <= j < |ks| ==> ks[j] < |xs| && Truthy(xs[ks[j]]) && KeepTruthy(xs)[j] == xs[ks[j]].value
    decreases |xs|
  {
    if xs != [] {
      KeepTruthyAt(xs[1..]);
      var ks := TruthyIndices(xs);
      var head: seq<nat> := if Truthy(xs[0]) then [0] else [];
      assert ks == head + Shift(TruthyIndices(xs[1..]));
      forall j | 0 <= j < |ks| ensures ks[j] < |xs| && Truthy(xs[ks[j]]) && KeepTruthy(xs)[j] == xs[ks[j]].value {
        if j >= |head| {
          assert xs[ks[j]] == xs[1..][ks[j] - 1];
        }
      }
    }
  }

  predicate Increasing(ks: seq<nat>) {
    forall j, k :: 0 <= j < k < |ks| ==> ks[j] < ks[k]
  }

  /** The truthy positions are listed in increasing order. */
  lemma {:induction false} TruthyIndicesIncrease(xs: seq<Option<string>>)
    ensures Increasing(TruthyIndices(xs))
    decreases |xs|
  {
    if xs != [] {
      TruthyIndicesIncrease(xs[1..]);
      var head: seq<nat> := if Truthy(xs[0]) then [0] else [];
      var t := TruthyIndices(xs[1..]);
      var ks := TruthyIndices(xs);
      assert ks == head + Shift(t);
      forall j, k | 0 <= j < k < |ks| ensures ks[j] < ks[k] {
        if j >= |head| {
          assert ks[j] == t[j - |head|] + 1 && ks[k] == t[k - |head|] + 1;
          assert t[j - |head|] < t[k - |head|];
        } else {
          assert ks[j] == 0 && ks[k] == t[k - 1] + 1;
        }
      }
    }
  }

  /** Every truthy position is listed. */
  lemma {:induction false} TruthyIndicesComplete(xs: seq<Option<string>>)
    ensures forall i :: 0 <= i < |xs| && Truthy(xs[i]) ==> i in TruthyIndices(xs)
    decreases |xs|
  {
    if xs != [] {
      var tail := xs[1..];
      TruthyIndicesComplete(tail);
      var ts := TruthyIndices(tail);
      var ks := TruthyIndices(xs);
      var head: seq<nat> := if Truthy(xs[0]) then [0] else [];
      assert ks == head + Shift(ts);
      forall i | 0 <= i < |xs| && Truthy(xs[i]) ensures i in ks {
        if i == 0 {
          assert ks[0] == 0;
        } else {
          assert Truthy(tail[i - 1]);
          var j :| 0 <= j < |ts| && ts[j] == i - 1;
          assert ks[|head| + j] == i;
        }
      }
    }
  }

  /** The kept values are exactly the truthy entries, each once, in their
      original order. */
  lemma KeepTruthyIsOrderedSelection(xs: seq<Option<string>>)
    ensures var ks := TruthyIndices(xs);
      |KeepTruthy(xs)| == |ks|
      && (forall j :: 0 <= j < |ks| ==> ks[j] < |xs| && Truthy(xs[ks[j]]) && KeepTruthy(xs)[j] == xs[ks[j]].value)
      && Increasing(ks)
      && (forall i :: 0 <= i < |xs| && Truthy(xs[i]) ==> i in ks)
  {
    KeepTruthyAt(xs);
    TruthyIndicesIncrease(xs);
    TruthyIndicesComplete(xs);
  }

  /** When every format yields a non-empty `mediaSrc`, there is exactly one
      thumbnail per format, in format order. */
  lemma {:induction false} AllTruthyKeepsEveryFormat(title: string, formats: seq<Orientation>, gen: Generator)
    requires forall i :: 0 <= i < |formats| ==>
               gen(title, formats[i]).Resolved? && gen(title, formats[i]).value.Some? && gen(title, formats[i]).value.value != ""
    ensures GenerateThumbnails(title, formats, gen).Resolved?
    ensures var r := GenerateThumbnails(title, formats, gen).value;
      |r| == |formats| && forall i :: 0 <= i < |formats| ==> r[i] == gen(title, formats[i]).value.value
    decreases |formats|
  {
    if formats != [] {
      AllTruthyKeepsEveryFormat(title, formats[1..], gen);
      assert forall i :: 1 <= i < |formats| ==> formats[1..][i - 1] == formats[i];
    }
  }
}
