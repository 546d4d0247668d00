/** `ObjectsDecoder.decode`: the four decoding stages run in order, then the
    inspector hooks, with the inspector closed in a `finally` block.

    The stages after `readDopeOutput` (`findKeypoints(output, threshold)`,
    `findObjects`, `findPoses`) are parameters: their results, keypoints of
    type `K` and 2D objects of type `O`, are opaque to the decoder, which
    only passes them on. Calls to the inspector are observable only as the
    calls themselves, so `Decode` returns them as a trace. */
module ObjectsDecoding {
  import opened Wrappers
  import opened NDArrays
  import opened OpenCv
  import opened Io
  import Cuboids3D
  import DecoderUtils

  /** The camera description handed to the pose stage. */
  datatype CameraInfo = CameraInfo(cameraMat: CvMat, distortionMat: CvMat)

  /** The stages `decode` delegates to after reading the output tensor. */
  datatype Stages<!K, !O> = Stages(
    findKeypoints: (OutputTensor, real) -> Result<K>,
    findObjects: (K, AffinityFields) -> Result<O>,
    findPoses: (O, Cuboids3D.Cuboid3D, CameraInfo) -> Result<OutputPoses>)

  /** The decoder's configuration; `hasInspectorBuilder` says whether the
      optional inspector builder is present. */
  datatype ObjectsDecoder<!K, !O> = ObjectsDecoder(
    threshold: real,
    cuboid3DModel: Cuboids3D.Cuboid3D,
    cameraInfo: CameraInfo,
    hasInspectorBuilder: bool,
    stages: Stages<K, O>)

  /** One observable step of `decode`: building or closing the inspector,
      entering a stage, or calling an inspector hook with its argument. */
  datatype Call<K, O> =
    | BuildInspector
    | ReadOutput
    | FindKeypoints
    | FindObjects
    | FindPoses
    | InspectTensor(output: OutputTensor)
    | InspectKeypoints(keypoints: K)
    | InspectObjects(objects: O)
    | InspectPoses(poses: OutputPoses)
    | Close
  {
    predicate IsStage()
    {
      ReadOutput? || FindKeypoints? || FindObjects? || FindPoses?
    }

    predicate IsHook()
    {
      InspectTensor? || InspectKeypoints? || InspectObjects? || InspectPoses?
    }
  }

  /** The four stages in the order `decode` runs them. */
  function AllStages<K, O>(): seq<Call<K, O>>
  {
    [ReadOutput, FindKeypoints, FindObjects, FindPoses]
  }

  /** The three-argument constructor: no inspector builder. */
  function NewObjectsDecoder<K, O>(threshold: real, cuboid3DModel: Cuboids3D.Cuboid3D,
                                   cameraInfo: CameraInfo, stages: Stages<K, O>): (d: ObjectsDecoder<K, O>)
    ensures !d.hasInspectorBuilder
    ensures d.threshold == threshold && d.cuboid3DModel == cuboid3DModel && d.cameraInfo == cameraInfo
  {
    ObjectsDecoder(threshold, cuboid3DModel, cameraInfo, false, stages)
  }

  /** The inspector hooks, in the order `decode` calls them. */
  function Hooks<K, O>(output: OutputTensor, keypoints: K, objects2d: O, poses: OutputPoses): seq<Call<K, O>>
  {
    [InspectTensor(output), InspectKeypoints(keypoints), InspectObjects(objects2d), InspectPoses(poses)]
  }

  /** How the `try` block of `decode` ended: its result, how many stages it
      entered and the hooks it called. */
  datatype Outcome<K, O> = Outcome(result: Result<OutputPoses>, stagesRun: nat, hooks: seq<Call<K, O>>)

  /** The `try` block of `decode`: the stages up to the first failure and,
      when all succeed, the hooks of an inspector if there is one. */
  function Attempt<K, O>(d: ObjectsDecoder<K, O>, tensor: NDArray): (a: Outcome<K, O>)
    requires WellFormed(tensor)
    ensures 1 <= a.stagesRun <= 4
    ensures forall c :: c in a.hooks ==> c.IsHook()
  {
    match DecoderUtils.ReadDopeOutput(tensor)
    case Failure(e) => Outcome(Failure(e), 1, [])
    case Success(output) =>
      match d.stages.findKeypoints(output, d.threshold)
      case Failure(e) => Outcome(Failure(e), 2, [])
      case Success(keypoints) =>
        match d.stages.findObjects(keypoints, output.affinities)
        case Failure(e) => Outcome(Failure(e), 3, [])
        case Success(objects2d) =>
          match d.stages.findPoses(objects2d, d.cuboid3DModel, d.cameraInfo)
          case Failure(e) => Outcome(Failure(e), 4, [])
          case Success(poses) =>
            Outcome(Success(poses), 4,
                    if d.hasInspectorBuilder then Hooks(output, keypoints, objects2d, poses) else [])
  }

  /** The calls of a `decode` whose `try` block ended as `a`: building the
      inspector, the stages entered, the hooks, and `close` in `finally`. */
  function Trace<K, O>(d: ObjectsDecoder<K, O>, a: Outcome<K, O>): seq<Call<K, O>>
    requires a.stagesRun <= 4
  {
    (if d.hasInspectorBuilder then [BuildInspector] else [])
    + AllStages()[..a.stagesRun] + a.hooks
    + (if d.hasInspectorBuilder then [Close] else [])
  }

  /** The outcome and the calls of `decode(inputImage, outputTensor)`. */
  function Decoded<K, O>(d: ObjectsDecoder<K, O>, tensor: NDArray): (Result<Option<OutputPoses>>, seq<Call<K, O>>)
    requires WellFormed(tensor)
  {
    var a := Attempt(d, tensor);
    (if a.result.Success? then Success(Some(a.result.value)) else Failure(a.result.error), Trace(d, a))
  }

  /** `decode(inputImage, outputTensor)`. The input image only reaches the
      inspector builder, so it is not a parameter here. */
  method Decode<K, O>(d: ObjectsDecoder<K, O>, tensor: NDArray)
    returns (r: Result<Option<OutputPoses>>, calls: seq<Call<K, O>>)
    requires WellFormed(tensor)
    ensures (r, calls) == Decoded(d, tensor)
  {
    var inspector := d.hasInspectorBuilder;
    ghost var pre: seq<Call<K, O>> := if inspector then [BuildInspector] else [];
    ghost var all: seq<Call<K, O>> := AllStages();
    ghost var outcome: Outcome<K, O>;
    calls := [];
    if inspector {
      calls := calls + [BuildInspector];
    }
    label attempt: {
      calls := calls + [ReadOutput];
      assert calls == pre + all[..1];
      var output := DecoderUtils.ReadDopeOutput(tensor);
      if output.Failure? {
        r := Failure(output.error);
        outcome := Outcome(Failure(output.error), 1, []);
        break attempt;
      }
      calls := calls + [FindKeypoints];
      assert calls == pre + all[..2];
      var keypoints := d.stages.findKeypoints(output.value, d.threshold);
      if keypoints.Failure? {
        r := Failure(keypoints.error);
        outcome := Outcome(Failure(keypoints.error), 2, []);
        break attempt;
      }
      calls := calls + [FindObjects];
      assert calls == pre + all[..3];
      var objects2d := d.stages.findObjects(keypoints.value, output.value.affinities);
      if objects2d.Failure? {
        r := Failure(objects2d.error);
        outcome := Outcome(Failure(objects2d.error), 3, []);
        break attempt;
      }
      calls := calls + [FindPoses];
      assert calls == pre + all[..4];
      var poses := d.stages.findPoses(objects2d.value, d.cuboid3DModel, d.cameraInfo);
      if poses.Failure? {
        r := Failure(poses.error);
        outcome := Outcome(Failure(poses.error), 4, []);
        break attempt;
      }
      if inspector {
        calls := calls + [InspectTensor(output.value)];
        calls := calls + [InspectKeypoints(keypoints.value)];
        calls := calls + [InspectObjects(objects2d.value)];
        calls := calls + [InspectPoses(poses.value)];
        assert calls == pre + all[..4] + Hooks(output.value, keypoints.value, objects2d.value, poses.value);
      }
      r := Success(Some(poses.value));
      outcome := Outcome(poses, 4, if inspector then Hooks(output.value, keypoints.value, objects2d.value, poses.value) else []);
    }
    assert outcome == Attempt(d, tensor);
    assert calls == pre + all[..outcome.stagesRun] + outcome.hooks;
    if inspector {
      calls := calls + [Close];
    }
  }

  /** The stage calls of a trace, in order. */
  function StageCalls<K, O>(calls: seq<Call<K, O>>): seq<Call<K, O>>
  {
    if calls == [] then []
    else
      var last := calls[|calls| - 1];
      StageCalls(calls[..|calls| - 1]) + (if last.IsStage() then [last] else [])
  }

  /** The hook calls of a trace, in order. */
  function HookCalls<K, O>(calls: seq<Call<K, O>>): seq<Call<K, O>>
  {
    if calls == [] then []
    else
      var last := calls[|calls| - 1];
      HookCalls(calls[..|calls| - 1]) + (if last.IsHook() then [last] else [])
  }

  lemma {:induction false} StageCallsAppend<K, O>(a: seq<Call<K, O>>, b: seq<Call<K, O>>)
    ensures StageCalls(a + b) == StageCalls(a) + StageCalls(b)
    ensures HookCalls(a + b) == HookCalls(a) + HookCalls(b)
    decreases |b|
  {
    if b == [] {
      assert a + b == a;
    } else {
      assert (a + b)[..|a + b| - 1] == a + b[..|b| - 1];
      StageCallsAppend(a, b[..|b| - 1]);
    }
  }

  lemma {:induction false} StagesOnly<K, O>(s: seq<Call<K, O>>)
    requires forall i :: 0 <= i < |s| ==> s[i].IsStage()
    ensures StageCalls(s) == s && HookCalls(s) == []
  {
    if s != [] {
      StagesOnly(s[..|s| - 1]);
    }
  }

  lemma {:induction false} HooksOnly<K, O>(s: seq<Call<K, O>>)
    requires forall i :: 0 <= i < |s| ==> s[i].IsHook()
    ensures StageCalls(s) == [] && HookCalls(s) == s
  {
    if s != [] {
      HooksOnly(s[..|s| - 1]);
    }
  }

  /** Building and closing the inspector are neither stages nor hooks. */
  lemma InspectorLifecycleCalls<K, O>()
    ensures StageCalls<K, O>([BuildInspector]) == [] && HookCalls<K, O>([BuildInspector]) == []
    ensures StageCalls<K, O>([Close]) == [] && HookCalls<K, O>([Close]) == []
  {
    var build: seq<Call<K, O>> := [BuildInspector];
    var close: seq<Call<K, O>> := [Close];
    assert build[..0] == [] && close[..0] == [];
  }

  /** Stage calls followed by hooks split back into the two. */
  lemma StagesThenHooks<K, O>(stages: seq<Call<K, O>>, hooks: seq<Call<K, O>>)
    requires forall i :: 0 <= i < |stages| ==> stages[i].IsStage()
    requires forall i :: 0 <= i < |hooks| ==> hooks[i].IsHook()
    ensures StageCalls(stages + hooks) == stages
    ensures HookCalls(stages + hooks) == hooks
  {
    StagesOnly(stages);
    HooksOnly(hooks);
    StageCallsAppend(stages, hooks);
    assert stages + [] == stages;
    assert [] + hooks == hooks;
  }

  /** Building the inspector before and closing it after a trace adds
      neither stages nor hooks. */
  lemma BetweenBuildAndClose<K, O>(mid: seq<Call<K, O>>)
    ensures StageCalls([BuildInspector] + mid + [Close]) == StageCalls(mid)
    ensures HookCalls([BuildInspector] + mid + [Close]) == HookCalls(mid)
  {
    var build: seq<Call<K, O>> := [BuildInspector];
    var close: seq<Call<K, O>> := [Close];
    InspectorLifecycleCalls<K, O>();
    StageCallsAppend(build, mid);
    StageCallsAppend(build + mid, close);
    assert [] + StageCalls(mid) + [] == StageCalls(mid);
    assert [] + HookCalls(mid) + [] == HookCalls(mid);
  }

  /** The parts of a trace built from an outcome whose hooks are hooks. */
  lemma TraceParts<K, O>(d: ObjectsDecoder<K, O>, a: Outcome<K, O>)
    requires a.stagesRun <= 4
    requires forall i :: 0 <= i < |a.hooks| ==> a.hooks[i].IsHook()
    ensures StageCalls(Trace(d, a)) == AllStages()[..a.stagesRun]
    ensures HookCalls(Trace(d, a)) == a.hooks
  {
    var stages: seq<Call<K, O>> := AllStages()[..a.stagesRun];
    var mid := stages + a.hooks;
    StagesThenHooks(stages, a.hooks);
    if d.hasInspectorBuilder {
      BetweenBuildAndClose(mid);
      assert Trace(d, a) == [BuildInspector] + mid + [Close];
    } else {
      assert Trace(d, a) == mid;
    }
  }

  /** Every `decode` trace is: building the inspector if there is one, the
      stages entered, the hooks, and closing the inspector if there is one,
      in that order; so no hook comes before a stage, and the inspector is
      closed last. */
  lemma TraceShape<K, O>(d: ObjectsDecoder<K, O>, tensor: NDArray)
    requires WellFormed(tensor)
    ensures var (r, calls) := Decoded(d, tensor);
            var pre: seq<Call<K, O>> := if d.hasInspectorBuilder then [BuildInspector] else [];
            var post: seq<Call<K, O>> := if d.hasInspectorBuilder then [Close] else [];
            calls == pre + StageCalls(calls) + HookCalls(calls) + post
    ensures var (r, calls) := Decoded(d, tensor);
            StageCalls(calls) == AllStages()[..Attempt(d, tensor).stagesRun]
            && HookCalls(calls) == Attempt(d, tensor).hooks
  {
    var a := Attempt(d, tensor);
    assert forall i :: 0 <= i < |a.hooks| ==> a.hooks[i].IsHook() by {
      forall i | 0 <= i < |a.hooks| ensures a.hooks[i].IsHook() {
        assert a.hooks[i] in a.hooks;
      }
    }
    TraceParts(d, a);
  }

  /** The stages run in the order read, keypoints, objects, poses, each at
      most once, stopping at the first that fails, whose error the decode
      reports; the decode succeeds only
      when all four ran, and then returns a present result holding what the
      poses stage produced from the objects stage's result, which came from
      the keypoints stage's, which came from the tensor read. */
  lemma StagesInOrder<K, O>(d: ObjectsDecoder<K, O>, tensor: NDArray)
    requires WellFormed(tensor)
    ensures var (r, calls) := Decoded(d, tensor);
            var stages := StageCalls(calls);
            1 <= |stages| <= 4 && stages == AllStages()[..|stages|]
            && (|stages| < 4 ==> r.Failure?)
    ensures var (r, calls) := Decoded(d, tensor);
            (|StageCalls(calls)| == 1 <==> DecoderUtils.ReadDopeOutput(tensor).Failure?)
            && (|StageCalls(calls)| == 1 ==> r == Failure(DecoderUtils.ReadDopeOutput(tensor).error))
    ensures var (r, calls) := Decoded(d, tensor);
            |StageCalls(calls)| == 2 ==>
              var output := DecoderUtils.ReadDopeOutput(tensor);
              output.Success?
              && var keypoints := d.stages.findKeypoints(output.value, d.threshold);
                 keypoints.Failure? && r == Failure(keypoints.error)
    ensures var (r, calls) := Decoded(d, tensor);
            |StageCalls(calls)| == 3 ==>
              var output := DecoderUtils.ReadDopeOutput(tensor);
              output.Success?
              && var keypoints := d.stages.findKeypoints(output.value, d.threshold);
                 keypoints.Success?
                 && var objects2d := d.stages.findObjects(keypoints.value, output.value.affinities);
                    objects2d.Failure? && r == Failure(objects2d.error)
    ensures var (r, calls) := Decoded(d, tensor);
            |StageCalls(calls)| == 4 && r.Failure? ==>
              var output := DecoderUtils.ReadDopeOutput(tensor);
              output.Success?
              && var keypoints := d.stages.findKeypoints(output.value, d.threshold);
                 keypoints.Success?
                 && var objects2d := d.stages.findObjects(keypoints.value, output.value.affinities);
                    objects2d.Success?
                    && var poses := d.stages.findPoses(objects2d.value, d.cuboid3DModel, d.cameraInfo);
                       poses.Failure? && r == Failure(poses.error)
    ensures var (r, calls) := Decoded(d, tensor);
            r.Success? ==>
              |StageCalls(calls)| == 4
              && var output := DecoderUtils.ReadDopeOutput(tensor);
                 output.Success?
                 && var keypoints := d.stages.findKeypoints(output.value, d.threshold);
                    keypoints.Success?
                    && var objects2d := d.stages.findObjects(keypoints.value, output.value.affinities);
                       objects2d.Success?
                       && var poses := d.stages.findPoses(objects2d.value, d.cuboid3DModel, d.cameraInfo);
                          poses.Success? && r.value == Some(poses.value)
  {
    TraceShape(d, tensor);
  }

  /** Hooks fire only when every stage succeeded and an inspector was built;
      they are then, in order, the tensor, keypoints, objects and poses
      hooks, each called with the value its stage produced. */
  lemma HooksAfterSuccess<K, O>(d: ObjectsDecoder<K, O>, tensor: NDArray)
    requires WellFormed(tensor)
    ensures var (r, calls) := Decoded(d, tensor);
            HookCalls(calls) != [] <==> r.Success? && d.hasInspectorBuilder
    ensures var (r, calls) := Decoded(d, tensor);
            r.Success? && d.hasInspectorBuilder ==>
              var output := DecoderUtils.ReadDopeOutput(tensor).value;
              var keypoints := d.stages.findKeypoints(output, d.threshold).value;
              var objects2d := d.stages.findObjects(keypoints, output.affinities).value;
              HookCalls(calls) == Hooks(output, keypoints, objects2d, r.value.value)
  {
    TraceShape(d, tensor);
  }

  /** The `try` block neither builds nor closes the inspector, and calls
      only stages and hooks. */
  lemma NoLifecycleCalls<K, O>(d: ObjectsDecoder<K, O>, a: Outcome<K, O>)
    requires a.stagesRun <= 4
    requires forall c :: c in a.hooks ==> c.IsHook()
    ensures var body := AllStages()[..a.stagesRun] + a.hooks;
            multiset(body)[BuildInspector] == 0 && multiset(body)[Close] == 0
            && forall c :: c in body ==> c.IsStage() || c.IsHook()
  {
    var stages: seq<Call<K, O>> := AllStages()[..a.stagesRun];
    var body := stages + a.hooks;
    assert forall c :: c in stages ==> c.IsStage();
    assert BuildInspector !in body && Close !in body;
  }

  /** What `CloseExactlyOnce` states, for any outcome of the `try` block. */
  lemma TraceLifecycle<K, O>(d: ObjectsDecoder<K, O>, a: Outcome<K, O>)
    requires a.stagesRun <= 4
    requires forall c :: c in a.hooks ==> c.IsHook()
    ensures var calls := Trace(d, a);
            d.hasInspectorBuilder ==>
              calls[0] == BuildInspector && calls[|calls| - 1] == Close
              && multiset(calls)[Close] == 1 && multiset(calls)[BuildInspector] == 1
    ensures !d.hasInspectorBuilder ==> forall c :: c in Trace(d, a) ==> c.IsStage() || c.IsHook()
  {
    var body := AllStages()[..a.stagesRun] + a.hooks;
    NoLifecycleCalls(d, a);
    if d.hasInspectorBuilder {
      assert Trace(d, a) == [BuildInspector] + body + [Close];
      assert multiset(Trace(d, a)) == multiset{BuildInspector} + multiset(body) + multiset{Close};
    } else {
      assert Trace(d, a) == body;
    }
  }

  /** With an inspector, `decode` builds it first and closes it last, each
      exactly once, whether or not a stage failed; without one, it calls
      nothing but the stages. */
  lemma CloseExactlyOnce<K, O>(d: ObjectsDecoder<K, O>, tensor: NDArray)
    requires WellFormed(tensor)
    ensures var (r, calls) := Decoded(d, tensor);
            d.hasInspectorBuilder ==>
              calls[0] == BuildInspector && calls[|calls| - 1] == Close
              && multiset(calls)[Close] == 1 && multiset(calls)[BuildInspector] == 1
    ensures var (r, calls) := Decoded(d, tensor);
            !d.hasInspectorBuilder ==> forall c :: c in calls ==> c.IsStage()
  {
    TraceLifecycle(d, Attempt(d, tensor));
    HooksAfterSuccess(d, tensor);
  }
}
