/**
 * Merging of the recognition engine's incremental results into the stored
 * final text and a fresh interim text (the `onresult` handler of the hook).
 */
module TranscriptAssembler {

  /** One entry of the engine's result list: the text of its first (and only)
      alternative and whether the engine will still revise it. */
  datatype RecognitionResult = RecognitionResult(transcript: string, isFinal: bool)

  /** The entries a callback processes: those from `resultIndex` on. */
  function Window(results: seq<RecognitionResult>, resultIndex: nat): (w: seq<RecognitionResult>)
    ensures |w| == if resultIndex <= |results| then |results| - resultIndex else 0
    ensures forall k :: 0 <= k < |w| ==> w[k] == results[resultIndex + k]
  {
    if resultIndex <= |results| then results[resultIndex..] else []
  }

  /** What one entry adds to the final text: its text and one space if final. */
  function FinalPiece(r: RecognitionResult): string {
    if r.isFinal then r.transcript + " " else ""
  }

  /** What one entry adds to the interim text: its text if not final. */
  function InterimPiece(r: RecognitionResult): string {
    if r.isFinal then "" else r.transcript
  }

  /** The text the final entries of `rs` append, in order. */
  function FinalText(rs: seq<RecognitionResult>): string {
    if rs == [] then "" else FinalText(rs[..|rs| - 1]) + FinalPiece(rs[|rs| - 1])
  }

  /** The concatenation of the non-final entries of `rs`, in order. */
  function InterimText(rs: seq<RecognitionResult>): string {
    if rs == [] then "" else InterimText(rs[..|rs| - 1]) + InterimPiece(rs[|rs| - 1])
  }

  /** The `for` loop of the result handler: walks the window, appending each
      final entry and a space to the stored final text and collecting the
      non-final entries into a new interim text. */
  method Merge(previousFinal: string, resultIndex: nat, results: seq<RecognitionResult>)
    returns (final: string, interim: string)
    ensures final == previousFinal + FinalText(Window(results, resultIndex))
    ensures interim == InterimText(Window(results, resultIndex))
  {
    interim := "";
    final := previousFinal;
    ghost var w := Window(results, resultIndex);
    var i := resultIndex;
    while i < |results|
      invariant resultIndex <= i && i - resultIndex <= |w|
      invariant final == previousFinal + FinalText(w[..i - resultIndex])
      invariant interim == InterimText(w[..i - resultIndex])
    {
      var r := results[i];
      ghost var k := i - resultIndex;
      assert r == w[k];
      PrefixStep(w, k);
      if r.isFinal {
        Associative(previousFinal, FinalText(w[..k]), FinalPiece(r));
        final := final + (r.transcript + " ");
      } else {
        interim := interim + r.transcript;
      }
      i := i + 1;
    }
    assert w[..i - resultIndex] == w;
  }

  lemma Associative(a: string, b: string, c: string)
    ensures (a + b) + c == a + (b + c)
  {
  }

  /** Extending a prefix of `rs` by its next entry adds that entry's piece to each text. */
  lemma PrefixStep(rs: seq<RecognitionResult>, k: nat)
    requires k < |rs|
    ensures FinalText(rs[..k + 1]) == FinalText(rs[..k]) + FinalPiece(rs[k])
    ensures InterimText(rs[..k + 1]) == InterimText(rs[..k]) + InterimPiece(rs[k])
  {
    assert rs[..k + 1][..k] == rs[..k];
  }

  // ---------------------------------------------------------------------------
  // Properties of the merge.

  lemma {:induction false} FinalTextAppend(a: seq<RecognitionResult>, b: seq<RecognitionResult>)
    ensures FinalText(a + b) == FinalText(a) + FinalText(b)
    decreases |b|
  {
    if b == [] {
      assert a + b == a;
    } else {
      var n := |b| - 1;
      var c := a + b;
      assert c[..|c| - 1] == a + b[..n];
      assert c[|c| - 1] == b[n];
      FinalTextAppend(a, b[..n]);
      calc {
        FinalText(c);
        FinalText(a + b[..n]) + FinalPiece(b[n]);
        FinalText(a) + FinalText(b[..n]) + FinalPiece(b[n]);
        FinalText(a) + (FinalText(b[..n]) + FinalPiece(b[n]));
        FinalText(a) + FinalText(b);
      }
    }
  }

  lemma {:induction false} InterimTextAppend(a: seq<RecognitionResult>, b: seq<RecognitionResult>)
    ensures InterimText(a + b) == InterimText(a) + InterimText(b)
    decreases |b|
  {
    if b == [] {
      assert a + b == a;
    } else {
      var n := |b| - 1;
      var c := a + b;
      assert c[..|c| - 1] == a + b[..n];
      assert c[|c| - 1] == b[n];
      InterimTextAppend(a, b[..n]);
      calc {
        InterimText(c);
        InterimText(a + b[..n]) + InterimPiece(b[n]);
        InterimText(a) + InterimText(b[..n]) + InterimPiece(b[n]);
        InterimText(a) + (InterimText(b[..n]) + InterimPiece(b[n]));
        InterimText(a) + InterimText(b);
      }
    }
  }

  /** A window without final entries leaves the final text as it was. */
  lemma {:induction false} NoFinalsAppendNothing(rs: seq<RecognitionResult>)
    requires forall k :: 0 <= k < |rs| ==> !rs[k].isFinal
    ensures FinalText(rs) == ""
    decreases |rs|
  {
    if rs != [] {
      NoFinalsAppendNothing(rs[..|rs| - 1]);
    }
  }

  /** A window of final entries only leaves an empty interim text. */
  lemma {:induction false} AllFinalsNoInterim(rs: seq<RecognitionResult>)
    requires forall k :: 0 <= k < |rs| ==> rs[k].isFinal
    ensures InterimText(rs) == ""
    decreases |rs|
  {
    if rs != [] {
      AllFinalsNoInterim(rs[..|rs| - 1]);
    }
  }

  /** Entries before `resultIndex` have no influence: two result lists that
      agree from `resultIndex` on have the same window. */
  lemma WindowIgnoresEarlierResults(r1: seq<RecognitionResult>, r2: seq<RecognitionResult>, resultIndex: nat)
    requires |r1| == |r2|
    requires forall k :: resultIndex <= k < |r1| ==> r1[k] == r2[k]
    ensures Window(r1, resultIndex) == Window(r2, resultIndex)
  {
    var w1, w2 := Window(r1, resultIndex), Window(r2, resultIndex);
    assert |w1| == |w2|;
    forall k | 0 <= k < |w1| ensures w1[k] == w2[k] {
      assert w1[k] == r1[resultIndex + k];
    }
  }

  /** Two successive callbacks, the second of which starts where the first
      list ended, leave the same final text as one callback over the whole
      list would: no final entry is lost or appended twice. */
  lemma SuccessiveCallbacksCompose(
    previousFinal: string, results: seq<RecognitionResult>, resultIndex: nat,
    more: seq<RecognitionResult>)
    requires resultIndex <= |results|
    ensures previousFinal + FinalText(Window(results, resultIndex))
              + FinalText(Window(results + more, |results|))
            == previousFinal + FinalText(Window(results + more, resultIndex))
    ensures InterimText(Window(results + more, |results|)) == InterimText(more)
  {
    assert Window(results + more, |results|) == more;
    assert Window(results + more, resultIndex) == results[resultIndex..] + more;
    FinalTextAppend(results[resultIndex..], more);
  }

  /** An interim hypothesis followed by its confirmed version. */
  lemma InterimThenFinal()
    ensures var first := [RecognitionResult("hello", false)];
            "" + FinalText(Window(first, 0)) == "" && InterimText(Window(first, 0)) == "hello"
    ensures var second := [RecognitionResult("hello world", true)];
            "" + FinalText(Window(second, 0)) == "hello world " && InterimText(Window(second, 0)) == ""
  {
    var first := [RecognitionResult("hello", false)];
    assert first[..0] == [];
    var second := [RecognitionResult("hello world", true)];
    assert second[..0] == [];
  }
}
