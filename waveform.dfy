/**
 * The chart data of the client: turning the backend's parallel `times` /
 * `dynamics` arrays into `{time, dynamics}` records, choosing the record
 * closest to the playhead, the marker drawn there, and the loudness labels of
 * the Y axis.
 */
module Waveform {
  import opened Common

  /**
   * A field of the JSON payload as JavaScript sees it: absent or falsy
   * (`undefined`, `null`, `0`, `""`), an array of numbers, or some other
   * truthy value that is not an array (a number, `true`), which has no `map`
   * method and reads as `undefined` at every index.
   */
  datatype Field = Missing | Items(items: seq<real>) | Other

  /** The `waveform_data` object the backend returns. */
  datatype WaveformData = WaveformData(times: Field, dynamics: Field)

  /** One chart record; `dynamics` is `None` where `dynamics[index]` is `undefined`. */
  datatype Point = Point(time: real, dynamics: Option<real>)

  /** The error JavaScript throws when `times` is a truthy value without `map`. */
  datatype ScriptError = TypeError

  /** `dynamics[i]` in JavaScript: `undefined` past the end or on a non-array. */
  function DynamicsAt(dynamics: Field, i: nat): (r: Option<real>)
    ensures r.Some? <==> dynamics.Items? && i < |dynamics.items|
    ensures r.Some? ==> r.value == dynamics.items[i]
  {
    match dynamics
    case Items(d) => if i < |d| then Some(d[i]) else None
    case _ => None
  }

  /** `times.map((time, index) => ({time, dynamics: dynamics[index]}))`. */
  function PairByIndex(times: seq<real>, dynamics: Field): (r: seq<Point>)
    ensures |r| == |times|
    ensures forall i :: 0 <= i < |r| ==> r[i].time == times[i] && r[i].dynamics == DynamicsAt(dynamics, i)
  {
    seq(|times|, i requires 0 <= i < |times| => Point(times[i], DynamicsAt(dynamics, i)))
  }

  /** The `time` column of a list of records. */
  function Times(ps: seq<Point>): (r: seq<real>)
    ensures |r| == |ps| && forall i :: 0 <= i < |ps| ==> r[i] == ps[i].time
  {
    seq(|ps|, i requires 0 <= i < |ps| => ps[i].time)
  }

  /** The `dynamics` column of a list of records. */
  function Dynamics(ps: seq<Point>): (r: seq<Option<real>>)
    ensures |r| == |ps| && forall i :: 0 <= i < |ps| ==> r[i] == ps[i].dynamics
  {
    seq(|ps|, i requires 0 <= i < |ps| => ps[i].dynamics)
  }

  /** Wraps every number of a sequence as a present value. */
  function Present(s: seq<real>): (r: seq<Option<real>>)
    ensures |r| == |s| && forall i :: 0 <= i < |s| ==> r[i] == Some(s[i])
  {
    seq(|s|, i requires 0 <= i < |s| => Some(s[i]))
  }

  /**
   * `processData` of the recorder page: `[]` when the payload, `times` or
   * `dynamics` is missing or falsy, a `TypeError` when `times` is truthy but
   * not an array, and otherwise one record per entry of `times`. There is no
   * length check: entries past the end of `dynamics` are `undefined`.
   */
  function ProcessData(w: Option<WaveformData>): (r: Result<seq<Point>, ScriptError>)
    ensures (w.None? || w.value.times.Missing? || w.value.dynamics.Missing?) ==> r == Ok([])
    ensures r.Err? <==> w.Some? && w.value.times.Other? && !w.value.dynamics.Missing?
    ensures w.Some? && w.value.times.Items? && !w.value.dynamics.Missing? ==>
              r.Ok? && |r.value| == |w.value.times.items| &&
              forall i :: 0 <= i < |r.value| ==>
                r.value[i] == Point(w.value.times.items[i], DynamicsAt(w.value.dynamics, i))
  {
    match w
    case None => Ok([])
    case Some(WaveformData(times, dynamics)) =>
      if times.Missing? || dynamics.Missing? then Ok([])
      else if times.Other? then Err(TypeError)
      else Ok(PairByIndex(times.items, dynamics))
  }

  /** The response body of `POST /process_youtube`. */
  datatype Response = Response(waveformData: Option<WaveformData>, audioFileUrl: Option<string>)

  /**
   * `processWaveform` of the audio processor: `[]` unless the body, its
   * `waveform_data`, and both its `times` and `dynamics` arrays are present
   * (checked with `Array.isArray`, so it never throws); otherwise one record
   * per entry of `times`.
   */
  function ProcessWaveform(body: Option<Response>): (r: seq<Point>)
    ensures (body.None? || body.value.waveformData.None? ||
             !body.value.waveformData.value.times.Items? ||
             !body.value.waveformData.value.dynamics.Items?) ==> r == []
    ensures body.Some? && body.value.waveformData.Some? &&
            body.value.waveformData.value.times.Items? &&
            body.value.waveformData.value.dynamics.Items? ==>
              var t := body.value.waveformData.value.times.items;
              var d := body.value.waveformData.value.dynamics.items;
              |r| == |t| &&
              forall i :: 0 <= i < |r| ==>
                r[i].time == t[i] && (r[i].dynamics.Some? <==> i < |d|) &&
                (i < |d| ==> r[i].dynamics == Some(d[i]))
  {
    match body
    case Some(Response(Some(WaveformData(Items(t), Items(d))), _)) => PairByIndex(t, Items(d))
    case _ => []
  }

  /**
   * Round trip: when `dynamics` has at least as many entries as `times`,
   * splitting the records back into columns gives `times` and the first
   * `|times|` entries of `dynamics`.
   */
  lemma SplitRecoversColumns(t: seq<real>, d: seq<real>)
    requires |d| >= |t|
    ensures ProcessData(Some(WaveformData(Items(t), Items(d)))).Ok?
    ensures Times(ProcessData(Some(WaveformData(Items(t), Items(d)))).value) == t
    ensures Dynamics(ProcessData(Some(WaveformData(Items(t), Items(d)))).value) == Present(d[..|t|])
  {
  }

  /**
   * The two normalisers agree whenever both arrays are arrays; they differ
   * only on malformed input, where `processData` may throw and
   * `processWaveform` returns `[]`.
   */
  lemma NormalisersAgree(t: seq<real>, d: seq<real>, url: Option<string>)
    ensures ProcessData(Some(WaveformData(Items(t), Items(d)))) ==
            Ok(ProcessWaveform(Some(Response(Some(WaveformData(Items(t), Items(d))), url))))
  {
  }

  lemma NormalisersDisagreeOnNonArray(d: seq<real>, url: Option<string>)
    ensures ProcessData(Some(WaveformData(Other, Items(d)))) == Err(TypeError)
    ensures ProcessWaveform(Some(Response(Some(WaveformData(Other, Items(d))), url))) == []
  {
  }

  /** `Math.abs(p.time - currentTime)`. */
  function Distance(p: Point, currentTime: real): (r: real)
    ensures r >= 0.0
  {
    Abs(p.time - currentTime)
  }

  /**
   * One step of `reduce((prev, curr) => dist(curr) < dist(prev) ? curr : prev)`
   * over `ps[i..]`, with `ps[prev]` the accumulator. The accumulator is the
   * earliest record of minimal distance among `ps[..i]`.
   */
  function ReduceClosest(ps: seq<Point>, currentTime: real, prev: nat, i: nat): (k: nat)
    requires prev < i <= |ps|
    requires forall j :: 0 <= j < i ==> Distance(ps[prev], currentTime) <= Distance(ps[j], currentTime)
    requires forall j :: 0 <= j < prev ==> Distance(ps[j], currentTime) > Distance(ps[prev], currentTime)
    decreases |ps| - i
    ensures k < |ps|
    ensures forall j :: 0 <= j < |ps| ==> Distance(ps[k], currentTime) <= Distance(ps[j], currentTime)
    ensures forall j :: 0 <= j < k ==> Distance(ps[j], currentTime) > Distance(ps[k], currentTime)
  {
    if i == |ps| then prev
    else if Distance(ps[i], currentTime) < Distance(ps[prev], currentTime) then
      ReduceClosest(ps, currentTime, i, i + 1)
    else
      ReduceClosest(ps, currentTime, prev, i + 1)
  }

  /**
   * The index of the moving dot's record: the chart computes it only for a
   * non-empty list, `reduce` starts from the first record, and the strict `<`
   * keeps the earlier record on a tie.
   */
  function ClosestIndex(ps: seq<Point>, currentTime: real): (k: nat)
    requires |ps| > 0
    ensures k < |ps|
    ensures forall j :: 0 <= j < |ps| ==> Distance(ps[k], currentTime) <= Distance(ps[j], currentTime)
    ensures forall j :: 0 <= j < k ==> Distance(ps[j], currentTime) > Distance(ps[k], currentTime)
  {
    ReduceClosest(ps, currentTime, 0, 1)
  }

  /** The index chosen is the only one meeting the two conditions above. */
  lemma ClosestIndexUnique(ps: seq<Point>, currentTime: real, m: nat)
    requires m < |ps|
    requires forall j :: 0 <= j < |ps| ==> Distance(ps[m], currentTime) <= Distance(ps[j], currentTime)
    requires forall j :: 0 <= j < m ==> Distance(ps[j], currentTime) > Distance(ps[m], currentTime)
    ensures ClosestIndex(ps, currentTime) == m
  {
  }

  /** The record `closestPoint` of the chart. */
  function ClosestPoint(ps: seq<Point>, currentTime: real): (p: Point)
    requires |ps| > 0
    ensures p in ps
    ensures forall q :: q in ps ==> Distance(p, currentTime) <= Distance(q, currentTime)
  {
    ps[ClosestIndex(ps, currentTime)]
  }

  /** The indices at which the dot callback draws a circle: `payload.time === closestPoint.time`. */
  function MarkedIndices(ps: seq<Point>, currentTime: real): (r: set<nat>)
    requires |ps| > 0
    ensures forall i: int :: i in r <==> 0 <= i < |ps| && ps[i].time == ClosestPoint(ps, currentTime).time
  {
    set i: nat | i < |ps| && ps[i].time == ClosestPoint(ps, currentTime).time
  }

  /**
   * A marker is drawn at the chosen record, and every record that gets one is
   * at the least distance from the playhead.
   */
  lemma MarkersAreClosest(ps: seq<Point>, currentTime: real)
    requires |ps| > 0
    ensures ClosestIndex(ps, currentTime) in MarkedIndices(ps, currentTime)
    ensures forall i :: i in MarkedIndices(ps, currentTime) ==>
              forall j :: 0 <= j < |ps| ==> Distance(ps[i], currentTime) <= Distance(ps[j], currentTime)
  {
  }

  /** Records ordered by strictly increasing time, as the backend produces them. */
  predicate StrictlyIncreasing(ps: seq<Point>) {
    forall i, j :: 0 <= i < j < |ps| ==> ps[i].time < ps[j].time
  }

  /** On a strictly increasing waveform exactly one marker is drawn. */
  lemma OneMarkerOnIncreasingTimes(ps: seq<Point>, currentTime: real)
    requires |ps| > 0 && StrictlyIncreasing(ps)
    ensures MarkedIndices(ps, currentTime) == {ClosestIndex(ps, currentTime)}
  {
  }

  /** The Y axis `tickFormatter`: musical dynamic marks around a mean loudness of 0.5. */
  function TickFormatter(tick: real): (r: string)
    ensures r == "m" <==> tick == 0.5
    ensures r == "mf" <==> 0.5 < tick <= 0.75
    ensures r == "f" <==> tick > 0.75
    ensures r == "mp" <==> 0.25 <= tick < 0.5
    ensures r == "p" <==> tick < 0.25
  {
    var meanLoudness := 0.5;
    if tick == meanLoudness then "m"
    else if tick > meanLoudness then (if tick > 0.75 then "f" else "mf")
    else if tick < 0.25 then "p" else "mp"
  }

  /** The loudness order of the five marks: p < mp < m < mf < f. */
  function Level(mark: string): (n: nat)
    ensures mark == "p" ==> n == 0
    ensures mark == "f" ==> n == 4
  {
    if mark == "p" then 0
    else if mark == "mp" then 1
    else if mark == "m" then 2
    else if mark == "mf" then 3
    else 4
  }

  /** Every tick gets one of the five marks, and louder ticks never get softer marks. */
  lemma TickFormatterMonotone(a: real, b: real)
    requires a <= b
    ensures TickFormatter(a) in ["p", "mp", "m", "mf", "f"]
    ensures Level(TickFormatter(a)) <= Level(TickFormatter(b))
  {
  }
}
