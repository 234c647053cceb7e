/** The face tracker as the game sees it: it starts the worker, polls it at a
    capped rate and raises a notification when the leading emotion changes. */
module Presenter {
  import opened Types
  import opened Worker

  /** The event raised when the leading emotion changes. */
  datatype Notification = Notification(emotion: Emotion, confidence: real)

  /** The outcome of one tick of the rate gate: whether it opens, and the
      accumulated time afterwards. */
  datatype GateStep = GateStep(open: bool, accumulated: real)

  /** The rate gate: elapsed time accumulates until it reaches one target
      frame interval, then the gate opens and the accumulator starts again at
      zero. A target rate of 0 makes the interval infinite (as 1/0 is in
      floating point), so the gate never opens. */
  function RateGate(accumulated: real, deltaTime: real, targetFps: int): (g: GateStep)
    ensures g.open ==> g.accumulated == 0.0
    ensures !g.open ==> g.accumulated == accumulated + deltaTime
  {
    var elapsed := accumulated + deltaTime;
    if targetFps != 0 && elapsed >= 1.0 / targetFps as real then GateStep(true, 0.0)
    else GateStep(false, elapsed)
  }

  /** The gate opens exactly when the accumulated time reaches one frame
      interval at a non-zero rate; while it stays closed at a positive rate
      the accumulator stays below one interval. */
  lemma RateGateOpensAtInterval(accumulated: real, deltaTime: real, targetFps: int)
    ensures RateGate(accumulated, deltaTime, targetFps).open <==>
      targetFps != 0 && accumulated + deltaTime >= 1.0 / targetFps as real
    ensures targetFps > 0 && !RateGate(accumulated, deltaTime, targetFps).open ==>
      RateGate(accumulated, deltaTime, targetFps).accumulated < 1.0 / targetFps as real
  {
  }

  /** The notification a poll of `results` raises when the last leading
      emotion was `last`: one carrying the first entry when the list is not
      empty and that entry's label differs, none otherwise. */
  function LeadingChange(last: Emotion, results: seq<EmotionData>): (n: Option<Notification>)
    ensures n.Some? <==> |results| > 0 && results[0].emotion != last
    ensures n.Some? ==> n.value == Notification(results[0].emotion, results[0].confidence)
  {
    if |results| > 0 && results[0].emotion != last then
      Some(Notification(results[0].emotion, results[0].confidence))
    else None
  }

  /** The leading emotion remembered after a poll: the list's first label
      when the list is not empty, the last one otherwise. */
  function NextLeading(last: Emotion, results: seq<EmotionData>): (e: Emotion)
    ensures |results| > 0 ==> e == results[0].emotion
    ensures |results| == 0 ==> e == last
  {
    match LeadingChange(last, results)
    case Some(n) => n.emotion
    case None => last
  }

  /** Polling the same list again raises nothing: a notification is raised
      once per change of the leading emotion, not once per poll. */
  lemma NotificationSettles(last: Emotion, results: seq<EmotionData>)
    ensures LeadingChange(NextLeading(last, results), results) == None
  {
  }

  /** The outcome of a run of ticks: how often the gate opened, and the
      accumulated time after the last tick. */
  datatype PollRun = PollRun(count: nat, accumulated: real)

  /** Total elapsed time of a sequence of ticks. */
  function Sum(deltas: seq<real>): real
  {
    if deltas == [] then 0.0 else deltas[0] + Sum(deltas[1..])
  }

  /** The number of ticks, out of the given sequence, on which the gate opens,
      and the accumulator after the last of them. */
  function Polls(accumulated: real, targetFps: int, deltas: seq<real>): PollRun
    decreases |deltas|
  {
    if deltas == [] then PollRun(0, accumulated)
    else
      var g := RateGate(accumulated, deltas[0], targetFps);
      var rest := Polls(g.accumulated, targetFps, deltas[1..]);
      PollRun((if g.open then 1 else 0) + rest.count, rest.accumulated)
  }

  /** Each opening of the gate uses up at least one frame interval of elapsed
      time: with a positive target rate the polls so far, times the interval,
      plus what is left in the accumulator never exceed the elapsed time. */
  lemma {:induction false} PollsUseUpTime(accumulated: real, targetFps: int, deltas: seq<real>)
    requires targetFps > 0 && accumulated >= 0.0
    requires forall i :: 0 <= i < |deltas| ==> deltas[i] >= 0.0
    ensures var run := Polls(accumulated, targetFps, deltas);
      run.accumulated >= 0.0 &&
      run.count as real * (1.0 / targetFps as real) + run.accumulated <= accumulated + Sum(deltas)
    decreases |deltas|
  {
    if deltas != [] {
      var interval := 1.0 / targetFps as real;
      var g := RateGate(accumulated, deltas[0], targetFps);
      PollsUseUpTime(g.accumulated, targetFps, deltas[1..]);
      var rest := Polls(g.accumulated, targetFps, deltas[1..]);
      var step: nat := if g.open then 1 else 0;
      assert (step + rest.count) as real * interval == step as real * interval + rest.count as real * interval;
    }
  }

  /** The rate cap: over ticks totalling `Sum(deltas)` seconds the gate opens
      at most the target rate times that many seconds, plus what was already
      accumulated. */
  lemma RateCap(accumulated: real, targetFps: int, deltas: seq<real>)
    requires targetFps > 0 && accumulated >= 0.0
    requires forall i :: 0 <= i < |deltas| ==> deltas[i] >= 0.0
    ensures Polls(accumulated, targetFps, deltas).count as real <= targetFps as real * (accumulated + Sum(deltas))
  {
    PollsUseUpTime(accumulated, targetFps, deltas);
    var count := Polls(accumulated, targetFps, deltas).count;
    var fps := targetFps as real;
    assert count as real * (1.0 / fps) <= accumulated + Sum(deltas);
    assert count as real == fps * (count as real * (1.0 / fps));
  }

  /** With a target rate of 0 the gate never opens, so the accumulator keeps
      every tick's elapsed time. */
  lemma {:induction false} ZeroRateNeverPolls(accumulated: real, deltas: seq<real>)
    ensures Polls(accumulated, 0, deltas) == PollRun(0, accumulated + Sum(deltas))
    decreases |deltas|
  {
    if deltas != [] {
      ZeroRateNeverPolls(accumulated + deltas[0], deltas[1..]);
    }
  }

  /** The tracker actor: the worker it started, the rate-gate accumulator and
      the leading emotion it last reported. */
  class FaceTracker {
    var worker: VideoProcessingThread?
    var hasVideoTexture: bool
    var videoWidth: int
    var videoHeight: int
    var targetFps: int
    var detectedEmotions: seq<EmotionData>
    var lastDetectedEmotion: Emotion
    var timeSinceLastUpdate: real

    /** The defaults: no worker yet, 640 by 480 at 30 frames per second,
        nothing accumulated and Neutral as the last leading emotion. */
    constructor ()
      ensures worker == null && !hasVideoTexture
      ensures videoWidth == 640 && videoHeight == 480 && targetFps == 30
      ensures detectedEmotions == [] && lastDetectedEmotion == Neutral && timeSinceLastUpdate == 0.0
    {
      worker := null;
      hasVideoTexture := false;
      videoWidth, videoHeight := 640, 480;
      targetFps := 30;
      detectedEmotions := [];
      lastDetectedEmotion := Neutral;
      timeSinceLastUpdate := 0.0;
    }

    /** Start-up: when the camera cannot be opened nothing else happens and no
        worker runs; otherwise the frame size the camera reports is kept, the
        texture is created (or not) and a fresh, running worker is started. */
    method BeginPlay(deviceOpened: bool, actualWidth: int, actualHeight: int, textureCreated: bool)
      modifies this
      ensures !deviceOpened ==>
        worker == old(worker) && hasVideoTexture == old(hasVideoTexture) &&
        videoWidth == old(videoWidth) && videoHeight == old(videoHeight)
      ensures deviceOpened ==>
        worker != null && fresh(worker) && worker.running && worker.emotionResults == [] &&
        hasVideoTexture == textureCreated && videoWidth == actualWidth && videoHeight == actualHeight
      ensures targetFps == old(targetFps) && timeSinceLastUpdate == old(timeSinceLastUpdate)
      ensures lastDetectedEmotion == old(lastDetectedEmotion) && detectedEmotions == old(detectedEmotions)
    {
      if !deviceOpened {
        return;
      }
      videoWidth, videoHeight := actualWidth, actualHeight;
      hasVideoTexture := textureCreated;
      worker := new VideoProcessingThread();
    }

    /** One engine tick. Without a worker or a texture nothing happens. Else
        the elapsed time goes through the rate gate; when it opens the worker's
        result list is copied and, if its first label differs from the last
        one, that label becomes the last one and a notification is raised. */
    method Tick(deltaTime: real) returns (event: Option<Notification>)
      modifies this
      ensures worker == old(worker) && hasVideoTexture == old(hasVideoTexture) && targetFps == old(targetFps)
      ensures videoWidth == old(videoWidth) && videoHeight == old(videoHeight)
      ensures worker == null || !hasVideoTexture ==>
        event == None && timeSinceLastUpdate == old(timeSinceLastUpdate) &&
        detectedEmotions == old(detectedEmotions) && lastDetectedEmotion == old(lastDetectedEmotion)
      ensures worker != null && hasVideoTexture ==>
        var g := RateGate(old(timeSinceLastUpdate), deltaTime, targetFps);
        timeSinceLastUpdate == g.accumulated &&
        detectedEmotions == (if g.open then worker.emotionResults else old(detectedEmotions)) &&
        event == (if g.open then LeadingChange(old(lastDetectedEmotion), worker.emotionResults) else None) &&
        lastDetectedEmotion == (if g.open then NextLeading(old(lastDetectedEmotion), worker.emotionResults)
                                else old(lastDetectedEmotion))
    {
      event := None;
      if worker == null || !hasVideoTexture {
        return;
      }
      timeSinceLastUpdate := timeSinceLastUpdate + deltaTime;
      if targetFps == 0 || timeSinceLastUpdate < 1.0 / targetFps as real {
        return;
      }
      timeSinceLastUpdate := 0.0;

      detectedEmotions := worker.GetEmotionData();
      if |detectedEmotions| > 0 {
        var currentEmotion := detectedEmotions[0].emotion;
        if currentEmotion != lastDetectedEmotion {
          lastDetectedEmotion := currentEmotion;
          event := Some(Notification(currentEmotion, detectedEmotions[0].confidence));
        }
      }
    }

    /** Shut-down: the worker is asked to stop and then released; what it
        published and the tracker's other state stay as they were. */
    method EndPlay()
      modifies this, worker
      ensures old(worker) != null ==> !old(worker).running
      ensures old(worker) != null ==>
        old(worker).emotionResults == old(worker.emotionResults) &&
        old(worker).processedFrame == old(worker.processedFrame)
      ensures worker == null
      ensures lastDetectedEmotion == old(lastDetectedEmotion) && detectedEmotions == old(detectedEmotions)
      ensures hasVideoTexture == old(hasVideoTexture) && targetFps == old(targetFps)
      ensures timeSinceLastUpdate == old(timeSinceLastUpdate)
      ensures videoWidth == old(videoWidth) && videoHeight == old(videoHeight)
    {
      if worker != null {
        worker.Stop();
      }
      worker := null;
    }
  }
}
