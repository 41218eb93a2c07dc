/**
 * Onset alignment and loudness matching of a student recording against an
 * example recording. Loading, resampling, onset detection and RMS are done by
 * an audio library; here their results are inputs: the onset times in
 * seconds, the common sample rate, and the mean-RMS function.
 */
module Match {
  import opened Common

  /** The `ValueError`s of the alignment, in the order they are checked. */
  datatype AlignError = NoOnsetInExample | NoOnsetInStudent | SilentAfterAlignment

  /** Python's `int(x)`: truncation toward zero. */
  function Trunc(x: real): (n: int)
    ensures x >= 0.0 ==> 0 <= n && n as real <= x < n as real + 1.0
    ensures x < 0.0 ==> n <= 0 && n as real - 1.0 < x <= n as real
  {
    if x >= 0.0 then x.Floor else -((-x).Floor)
  }

  /** `y[start:]` for `start >= 0`: empty once `start` reaches the end. */
  function Crop(y: seq<real>, start: nat): (r: seq<real>)
    ensures |r| == if start <= |y| then |y| - start else 0
    ensures y == y[..|y| - |r|] + r
    ensures forall i :: 0 <= i < |r| ==> r[i] == y[start + i]
  {
    if start <= |y| then y[start..] else []
  }

  /** `np.zeros(n)`. */
  function Zeros(n: nat): (r: seq<real>)
    ensures |r| == n && forall i :: 0 <= i < n ==> r[i] == 0.0
  {
    seq(n, _ => 0.0)
  }

  /**
   * The alignment branch: when the student's onset is `delta` seconds late,
   * drop the first `int(delta * sr)` samples; when it is early, put
   * `int(abs(delta) * sr)` zeros in front; otherwise keep the samples.
   */
  function Align(y: seq<real>, delta: real, sr: nat): (r: seq<real>)
    ensures delta > 0.0 ==> var n := Trunc(delta * sr as real);
              n >= 0 && |r| == (if n <= |y| then |y| - n else 0) &&
              y == y[..|y| - |r|] + r
    ensures delta < 0.0 ==> var n := Trunc(Abs(delta) * sr as real);
              n >= 0 && |r| == |y| + n && r[n..] == y &&
              forall i :: 0 <= i < n ==> r[i] == 0.0
    ensures delta == 0.0 ==> r == y
  {
    if delta > 0.0 then
      Crop(y, Trunc(delta * sr as real))
    else if delta < 0.0 then
      Zeros(Trunc(Abs(delta) * sr as real)) + y
    else
      y
  }

  /** Aligning an early recording and then the same amount late gives the recording back. */
  lemma AlignEarlyThenLate(y: seq<real>, delta: real, sr: nat)
    requires delta < 0.0
    ensures Align(Align(y, delta, sr), -delta, sr) == y
  {
    var n := Trunc(Abs(delta) * sr as real);
    assert Trunc(-delta * sr as real) == n;
    var padded := Align(y, delta, sr);
    assert padded[n..] == y;
  }

  /** `y * factor` on a numpy array. */
  function Scale(y: seq<real>, factor: real): (r: seq<real>)
    ensures |r| == |y| && forall i :: 0 <= i < |y| ==> r[i] == y[i] * factor
  {
    seq(|y|, i requires 0 <= i < |y| => y[i] * factor)
  }

  /** Scaling by a non-zero factor is undone by scaling with its reciprocal. */
  lemma ScaleInverse(y: seq<real>, factor: real)
    requires factor != 0.0
    ensures Scale(Scale(y, factor), 1.0 / factor) == y
  {
    var r := Scale(Scale(y, factor), 1.0 / factor);
    forall i | 0 <= i < |y| ensures r[i] == y[i] {
      calc {
        r[i];
        (y[i] * factor) * (1.0 / factor);
        y[i] * (factor * (1.0 / factor));
        y[i];
      }
    }
  }

  /**
   * `process_student_audio` after loading: an error when either recording
   * has no onset; otherwise align the student samples by the difference of
   * the first onsets, an error when the aligned samples have zero mean RMS,
   * and otherwise scale them by the ratio of the example's mean RMS to theirs.
   */
  function ProcessStudentAudio(example: seq<real>, student: seq<real>, sr: nat,
                               exampleOnsets: seq<real>, studentOnsets: seq<real>,
                               meanRms: seq<real> -> real): (r: Result<seq<real>, AlignError>)
    ensures exampleOnsets == [] <==> r == Err(NoOnsetInExample)
    ensures exampleOnsets != [] && studentOnsets == [] <==> r == Err(NoOnsetInStudent)
    ensures exampleOnsets != [] && studentOnsets != [] ==>
              var aligned := Align(student, studentOnsets[0] - exampleOnsets[0], sr);
              (r == Err(SilentAfterAlignment) <==> meanRms(aligned) == 0.0) &&
              (r.Ok? ==> r.value == Scale(aligned, meanRms(example) / meanRms(aligned)))
  {
    if exampleOnsets == [] then Err(NoOnsetInExample)
    else if studentOnsets == [] then Err(NoOnsetInStudent)
    else
      var delta := studentOnsets[0] - exampleOnsets[0];
      var aligned := Align(student, delta, sr);
      var rmsExample := meanRms(example);
      var rmsStudent := meanRms(aligned);
      if rmsStudent == 0.0 then Err(SilentAfterAlignment)
      else Ok(Scale(aligned, rmsExample / rmsStudent))
  }

  /**
   * The loudness correction is invertible: dividing the output by the
   * scaling factor gives back the aligned student samples.
   */
  lemma ProcessedIsScaledAlignment(example: seq<real>, student: seq<real>, sr: nat,
                                   exampleOnsets: seq<real>, studentOnsets: seq<real>,
                                   meanRms: seq<real> -> real)
    requires exampleOnsets != [] && studentOnsets != []
    requires meanRms(example) != 0.0
    requires ProcessStudentAudio(example, student, sr, exampleOnsets, studentOnsets, meanRms).Ok?
    ensures var aligned := Align(student, studentOnsets[0] - exampleOnsets[0], sr);
            Scale(ProcessStudentAudio(example, student, sr, exampleOnsets, studentOnsets, meanRms).value,
                  meanRms(aligned) / meanRms(example)) == aligned
  {
    var aligned := Align(student, studentOnsets[0] - exampleOnsets[0], sr);
    var factor := meanRms(example) / meanRms(aligned);
    ScaleInverse(aligned, factor);
    assert 1.0 / factor == meanRms(aligned) / meanRms(example);
  }
}
