/**
  The processing applicator: it opens a stroke on an image, brackets the
  processing jobs of one or more visitor applications between a leading and a
  final update command, and closes the stroke.

  What the applicator decides is the sequence of calls it makes on the image:
  which stroke each job goes to, in what order the jobs are queued, which tags
  they carry and which node each one targets. The image is modelled as a
  recorder of those calls; scheduling and executing the queued jobs is the
  stroke scheduler's business and is not part of this model.
*/
module ProcessingApplicator {

  // ---------------------------------------------------------------------------
  // The node tree
  // ---------------------------------------------------------------------------

  /**
    A node of the layer tree. `children` lists the nodes reached from
    firstChild() by following nextSibling(); `id` stands for the node's identity.
  */
  datatype Node = Node(id: nat, children: seq<Node>)

  /** The nodes of the subtree at `n`, children's subtrees first (left to right), then `n`. */
  function PostOrder(n: Node): seq<Node>
    decreases n
  {
    PostOrderForest(n.children) + [n]
  }

  /** The post-orders of the subtrees at `ns`, one after the other. */
  function PostOrderForest(ns: seq<Node>): seq<Node>
    decreases ns
  {
    if ns == [] then [] else PostOrder(ns[0]) + PostOrderForest(ns[1..])
  }

  /** The number of nodes in the subtree at `n`. */
  function Size(n: Node): nat
    decreases n
  {
    1 + ForestSize(n.children)
  }

  function ForestSize(ns: seq<Node>): nat
    decreases ns
  {
    if ns == [] then 0 else Size(ns[0]) + ForestSize(ns[1..])
  }

  /** Walking one more sibling appends that sibling's subtree. */
  lemma {:induction false} PostOrderForestSnoc(ns: seq<Node>, n: Node)
    ensures PostOrderForest(ns + [n]) == PostOrderForest(ns) + PostOrder(n)
    decreases ns
  {
    if ns == [] {
      assert PostOrderForest([n]) == PostOrder(n) + PostOrderForest([]);
    } else {
      assert (ns + [n])[0] == ns[0];
      assert (ns + [n])[1..] == ns[1..] + [n];
      PostOrderForestSnoc(ns[1..], n);
    }
  }

  /** A post-order walk visits every node of the subtree once: it is as long as the subtree is large. */
  lemma {:induction false} PostOrderLength(n: Node)
    ensures |PostOrder(n)| == Size(n)
    decreases n, 1
  {
    PostOrderForestLength(n.children);
  }

  lemma {:induction false} PostOrderForestLength(ns: seq<Node>)
    ensures |PostOrderForest(ns)| == ForestSize(ns)
    decreases ns, 0
  {
    if ns != [] {
      PostOrderLength(ns[0]);
      PostOrderForestLength(ns[1..]);
    }
  }

  /**
    Post-order as a property of the sequence: every node it lists comes right
    after the post-order of its own subtree, so all descendants of a node are
    visited, in order, before the node itself.
  */
  ghost predicate SubtreesPrecede(s: seq<Node>)
  {
    forall i :: 0 <= i < |s| ==>
      |PostOrder(s[i])| <= i + 1 && s[i + 1 - |PostOrder(s[i])| .. i + 1] == PostOrder(s[i])
  }

  /** A slice that lies inside the left part of a concatenation is a slice of that part. */
  lemma SliceOfConcatLeft<T>(a: seq<T>, b: seq<T>, lo: int, hi: int)
    requires 0 <= lo <= hi <= |a|
    ensures (a + b)[lo..hi] == a[lo..hi]
  {
    assert forall j :: 0 <= j < hi - lo ==> (a + b)[lo..hi][j] == a[lo..hi][j];
  }

  /** A slice that lies inside the right part of a concatenation is a slice of that part. */
  lemma SliceOfConcatRight<T>(a: seq<T>, b: seq<T>, lo: int, hi: int)
    requires |a| <= lo <= hi <= |a| + |b|
    ensures (a + b)[lo..hi] == b[lo - |a| .. hi - |a|]
  {
    assert forall j :: 0 <= j < hi - lo ==> (a + b)[lo..hi][j] == b[lo - |a| .. hi - |a|][j];
  }

  lemma {:induction false} SubtreesPrecedeConcat(a: seq<Node>, b: seq<Node>)
    requires SubtreesPrecede(a) && SubtreesPrecede(b)
    ensures SubtreesPrecede(a + b)
  {
    var s := a + b;
    forall i | 0 <= i < |s|
      ensures |PostOrder(s[i])| <= i + 1 && s[i + 1 - |PostOrder(s[i])| .. i + 1] == PostOrder(s[i])
    {
      if i < |a| {
        assert s[i] == a[i];
        SliceOfConcatLeft(a, b, i + 1 - |PostOrder(a[i])|, i + 1);
      } else {
        var k := i - |a|;
        assert s[i] == b[k];
        SliceOfConcatRight(a, b, i + 1 - |PostOrder(b[k])|, i + 1);
      }
    }
  }

  /** The post-order walk of a subtree puts every node right after its own subtree. */
  lemma {:induction false} PostOrderSubtreesPrecede(n: Node)
    ensures SubtreesPrecede(PostOrder(n))
    decreases n, 1
  {
    var f := PostOrderForest(n.children);
    var s := f + [n];
    PostOrderForestSubtreesPrecede(n.children);
    forall i | 0 <= i < |s|
      ensures |PostOrder(s[i])| <= i + 1 && s[i + 1 - |PostOrder(s[i])| .. i + 1] == PostOrder(s[i])
    {
      if i < |f| {
        assert s[i] == f[i];
        SliceOfConcatLeft(f, [n], i + 1 - |PostOrder(f[i])|, i + 1);
      } else {
        assert s[i] == n;
        assert s[0 .. i + 1] == s;
      }
    }
  }

  lemma {:induction false} PostOrderForestSubtreesPrecede(ns: seq<Node>)
    ensures SubtreesPrecede(PostOrderForest(ns))
    decreases ns, 0
  {
    if ns != [] {
      PostOrderSubtreesPrecede(ns[0]);
      PostOrderForestSubtreesPrecede(ns[1..]);
      SubtreesPrecedeConcat(PostOrder(ns[0]), PostOrderForest(ns[1..]));
    }
  }

  /** The walk ends at the node it started from. */
  lemma PostOrderEndsAtRoot(n: Node)
    ensures |PostOrder(n)| > 0 && PostOrder(n)[|PostOrder(n)| - 1] == n
  {
  }

  /** A root R with children A and B, where B has the child C, is walked as A, C, B, R. */
  lemma PostOrderExample(a: Node, b: Node, c: Node, r: Node)
    requires a.children == [] && c.children == []
    requires b.children == [c] && r.children == [a, b]
    ensures PostOrder(r) == [a, c, b, r]
  {
    assert PostOrder(a) == [a];
    assert PostOrder(c) == [c];
    assert PostOrderForest([c]) == [c];
    assert PostOrder(b) == [c, b];
    assert PostOrderForest([b]) == [c, b];
    assert PostOrderForest([a, b]) == [a] + PostOrderForest([b]);
  }

  // ---------------------------------------------------------------------------
  // Jobs, commands and the image
  // ---------------------------------------------------------------------------

  /** Identifies a stroke opened on an image. */
  type StrokeId = nat

  /** The caller's processing visitor, by identity; what it does to a node is not part of this model. */
  datatype Visitor = Visitor(id: nat)

  /** Ordering tag of a job (KisStrokeJobData::Sequentiality). */
  datatype Sequentiality = Concurrent | Sequential | Barrier

  /** Mutual-exclusion tag of a job (KisStrokeJobData::Exclusivity). */
  datatype Exclusivity = Normal | Exclusive

  /**
    The tags an update command is queued with. They are default arguments of
    applyCommand, declared in a header that is not part of this model: fixed,
    but not known here.
  */
  const UpdateSequentiality: Sequentiality
  const UpdateExclusivity: Exclusivity

  datatype Rect = Rect(x: int, y: int, width: int, height: int)

  /** The calls the applicator and its commands make on the image, in the order made. */
  datatype Event =
    | StrokeStarted(stroke: StrokeId, name: string)
    | JobAdded(stroke: StrokeId, data: JobData)
    | StrokeEnded(stroke: StrokeId)
    | GraphRefreshed(node: Node)
    | NodeDirtied(node: Node, rect: Rect)

  /** A job as queued: its command and its two tags. */
  datatype JobData = JobData(command: Command, sequentiality: Sequentiality, exclusivity: Exclusivity)

  datatype Command =
    | UpdateJob(update: UpdateCommand)
    | ProcessingJob(processing: ProcessingCommand)
    | OtherCommand(id: nat)  // any other undo command a client queues itself, by identity

  /** Applies `visitor` to `node` when run; its internals are not part of this model. */
  datatype ProcessingCommand = ProcessingCommand(visitor: Visitor, node: Node)

  /**
    The command that brackets a batch: the leading one (finalUpdate false)
    updates the image when undone, the final one when redone.
  */
  datatype UpdateCommand = UpdateCommand(image: Image, node: Node, recursive: bool, finalUpdate: bool)
  {
    /**
      The calls of one update: a refresh of the node's graph when recursive,
      always before marking the node dirty over the image bounds, and no other call.
    */
    function UpdateEvents(): (events: seq<Event>)
      ensures |events| == if recursive then 2 else 1
      ensures events[|events| - 1] == NodeDirtied(node, image.bounds)
      ensures GraphRefreshed(node) in events <==> recursive
      ensures forall e :: e in events ==> e == GraphRefreshed(node) || e == NodeDirtied(node, image.bounds)
    {
      (if recursive then [GraphRefreshed(node)] else []) + [NodeDirtied(node, image.bounds)]
    }

    /** What redo does: the update for the final command, nothing for the leading one. */
    function RedoEvents(): seq<Event>
    {
      if finalUpdate then UpdateEvents() else []
    }

    /** What undo does: the update for the leading command, nothing for the final one. */
    function UndoEvents(): seq<Event>
    {
      if finalUpdate then [] else UpdateEvents()
    }

    method Redo()
      modifies image
      ensures image.log == old(image.log) + RedoEvents()
    {
      if finalUpdate {
        DoUpdate();
      }
    }

    method Undo()
      modifies image
      ensures image.log == old(image.log) + UndoEvents()
    {
      if !finalUpdate {
        DoUpdate();
      }
    }

    method DoUpdate()
      modifies image
      ensures image.log == old(image.log) + UpdateEvents()
    {
      if recursive {
        image.RefreshGraphAsync(node);
      }
      image.SetDirty(node, image.bounds);
    }
  }

  /** Exactly one of redo and undo performs the update; between them they perform it once. */
  lemma UpdateInExactlyOneDirection(c: UpdateCommand)
    ensures (c.RedoEvents() == []) != (c.UndoEvents() == [])
    ensures c.RedoEvents() + c.UndoEvents() == c.UpdateEvents()
    ensures c.RedoEvents() != [] <==> c.finalUpdate
  {
  }

  /**
    The shared image, as far as the applicator uses it: it records every call
    made on it. The node tree belongs to the image, so a node's setDirty is
    recorded here as well.
  */
  class Image {
    const bounds: Rect
    var log: seq<Event>
    var strokeCount: nat

    constructor (bounds: Rect)
      ensures this.bounds == bounds && log == []
    {
      this.bounds := bounds;
      log := [];
      strokeCount := 0;
    }

    /** Opens a stroke whose undo-command-based strategy is labelled `name`. */
    method StartStroke(name: string) returns (id: StrokeId)
      modifies this
      ensures id == old(strokeCount) && strokeCount == old(strokeCount) + 1
      ensures log == old(log) + [StrokeStarted(id, name)]
    {
      id := strokeCount;
      strokeCount := strokeCount + 1;
      log := log + [StrokeStarted(id, name)];
    }

    method AddJob(stroke: StrokeId, data: JobData)
      modifies this
      ensures log == old(log) + [JobAdded(stroke, data)]
      ensures strokeCount == old(strokeCount)
    {
      log := log + [JobAdded(stroke, data)];
    }

    method EndStroke(stroke: StrokeId)
      modifies this
      ensures log == old(log) + [StrokeEnded(stroke)]
      ensures strokeCount == old(strokeCount)
    {
      log := log + [StrokeEnded(stroke)];
    }

    method RefreshGraphAsync(node: Node)
      modifies this
      ensures log == old(log) + [GraphRefreshed(node)]
      ensures strokeCount == old(strokeCount)
    {
      log := log + [GraphRefreshed(node)];
    }

    /** node->setDirty(rect). */
    method SetDirty(node: Node, rect: Rect)
      modifies this
      ensures log == old(log) + [NodeDirtied(node, rect)]
      ensures strokeCount == old(strokeCount)
    {
      log := log + [NodeDirtied(node, rect)];
    }
  }

  // ---------------------------------------------------------------------------
  // What the applicator submits
  // ---------------------------------------------------------------------------

  /** One applyVisitor call: the visitor and the tags the caller gave. */
  datatype VisitorCall = VisitorCall(visitor: Visitor, sequentiality: Sequentiality, exclusivity: Exclusivity)

  /** The update job queued at construction (finalUpdate false) or by end (finalUpdate true). */
  function UpdateJobData(image: Image, node: Node, recursive: bool, finalUpdate: bool): JobData
  {
    JobData(UpdateJob(UpdateCommand(image, node, recursive, finalUpdate)), UpdateSequentiality, UpdateExclusivity)
  }

  /** The nodes one applyVisitor call visits: the bound node, or its whole subtree in post-order. */
  function Targets(node: Node, recursive: bool): (targets: seq<Node>)
    ensures |targets| > 0 && targets[|targets| - 1] == node
    ensures !recursive ==> |targets| == 1
  {
    if recursive then PostOrder(node) else [node]
  }

  /** The job that runs `call`'s visitor on `target`, with `call`'s tags. */
  function ProcessingEvent(stroke: StrokeId, call: VisitorCall, target: Node): Event
  {
    JobAdded(stroke, JobData(ProcessingJob(ProcessingCommand(call.visitor, target)),
                             call.sequentiality, call.exclusivity))
  }

  /** One processing job per target, in the targets' order, all on `stroke` with `call`'s tags. */
  function ProcessingJobs(stroke: StrokeId, targets: seq<Node>, call: VisitorCall): (jobs: seq<Event>)
    ensures |jobs| == |targets|
  {
    if targets == [] then [] else [ProcessingEvent(stroke, call, targets[0])] + ProcessingJobs(stroke, targets[1..], call)
  }

  /** The i-th job targets the i-th node, on `stroke`, with `call`'s visitor and tags. */
  lemma {:induction false} ProcessingJobsAt(stroke: StrokeId, targets: seq<Node>, call: VisitorCall, i: nat)
    requires i < |targets|
    ensures ProcessingJobs(stroke, targets, call)[i] == ProcessingEvent(stroke, call, targets[i])
  {
    if i > 0 {
      ProcessingJobsAt(stroke, targets[1..], call, i - 1);
    }
  }

  lemma {:induction false} ProcessingJobsConcat(stroke: StrokeId, a: seq<Node>, b: seq<Node>, call: VisitorCall)
    ensures ProcessingJobs(stroke, a + b, call) == ProcessingJobs(stroke, a, call) + ProcessingJobs(stroke, b, call)
  {
    if a != [] {
      assert (a + b)[0] == a[0];
      assert (a + b)[1..] == a[1..] + b;
      ProcessingJobsConcat(stroke, a[1..], b, call);
    } else {
      assert a + b == b;
    }
  }

  /** A call a client makes between construction and end: applyVisitor, or applyCommand with its own job. */
  datatype Submission = Visit(call: VisitorCall) | Direct(data: JobData)

  /** The jobs of one client call: the visitor's processing jobs, or the client's one job. */
  function SubmissionJobs(stroke: StrokeId, targets: seq<Node>, submission: Submission): seq<Event>
  {
    match submission
    case Visit(call) => ProcessingJobs(stroke, targets, call)
    case Direct(data) => [JobAdded(stroke, data)]
  }

  /** The jobs of a sequence of client calls, call after call. */
  function CallJobs(stroke: StrokeId, targets: seq<Node>, calls: seq<Submission>): seq<Event>
    decreases |calls|
  {
    if calls == [] then []
    else CallJobs(stroke, targets, calls[..|calls| - 1]) + SubmissionJobs(stroke, targets, calls[|calls| - 1])
  }

  /** The number of applyVisitor calls among `calls`. */
  function VisitCount(calls: seq<Submission>): nat
    decreases |calls|
  {
    if calls == [] then 0
    else VisitCount(calls[..|calls| - 1]) + (if calls[|calls| - 1].Visit? then 1 else 0)
  }

  /** The jobs the client queued itself through applyCommand, in order. */
  function DirectJobs(stroke: StrokeId, calls: seq<Submission>): seq<Event>
    decreases |calls|
  {
    if calls == [] then []
    else DirectJobs(stroke, calls[..|calls| - 1])
         + (if calls[|calls| - 1].Direct? then [JobAdded(stroke, calls[|calls| - 1].data)] else [])
  }

  /**
    Everything one applicator submits, from construction through `calls` and,
    when `ended`, the end call: the stroke start, the leading update, the jobs
    of each call in turn, then the final update and the stroke end.
  */
  function Lifecycle(image: Image, stroke: StrokeId, name: string, node: Node, recursive: bool,
                     calls: seq<Submission>, ended: bool): seq<Event>
  {
    [StrokeStarted(stroke, name), JobAdded(stroke, UpdateJobData(image, node, recursive, false))]
    + CallJobs(stroke, Targets(node, recursive), calls)
    + (if ended then [JobAdded(stroke, UpdateJobData(image, node, recursive, true)), StrokeEnded(stroke)] else [])
  }

  /** A client call appends that call's jobs to the lifecycle. */
  lemma LifecycleAddCall(image: Image, stroke: StrokeId, name: string, node: Node, recursive: bool,
                         calls: seq<Submission>, call: Submission)
    ensures Lifecycle(image, stroke, name, node, recursive, calls + [call], false)
         == Lifecycle(image, stroke, name, node, recursive, calls, false)
            + SubmissionJobs(stroke, Targets(node, recursive), call)
  {
    assert (calls + [call])[..|calls|] == calls;
  }

  /** The end call appends the final update and the stroke end to the lifecycle. */
  lemma LifecycleEnd(image: Image, stroke: StrokeId, name: string, node: Node, recursive: bool,
                     calls: seq<Submission>)
    ensures Lifecycle(image, stroke, name, node, recursive, calls, true)
         == Lifecycle(image, stroke, name, node, recursive, calls, false)
            + [JobAdded(stroke, UpdateJobData(image, node, recursive, true)), StrokeEnded(stroke)]
  {
  }

  predicate IsUpdateJob(e: Event)
  {
    e.JobAdded? && e.data.command.UpdateJob?
  }

  predicate IsProcessingJob(e: Event)
  {
    e.JobAdded? && e.data.command.ProcessingJob?
  }

  /** A call that belongs to the stroke `stroke`: its start, one of its jobs, or its end. */
  predicate OnStroke(e: Event, stroke: StrokeId)
  {
    (e.StrokeStarted? || e.JobAdded? || e.StrokeEnded?) && e.stroke == stroke
  }

  /** The number of events in `events` that satisfy `p`. */
  function CountOf(events: seq<Event>, p: Event -> bool): nat
  {
    if events == [] then 0 else (if p(events[0]) then 1 else 0) + CountOf(events[1..], p)
  }

  lemma {:induction false} CountOfConcat(a: seq<Event>, b: seq<Event>, p: Event -> bool)
    ensures CountOf(a + b, p) == CountOf(a, p) + CountOf(b, p)
  {
    if a == [] {
      assert a + b == b;
    } else {
      assert (a + b)[0] == a[0];
      assert (a + b)[1..] == a[1..] + b;
      CountOfConcat(a[1..], b, p);
    }
  }

  /**
    The jobs of one applyVisitor call are processing jobs on `stroke`, one per
    target, and every one of them carries the caller's visitor and tags.
  */
  lemma {:induction false} ProcessingJobsShape(stroke: StrokeId, targets: seq<Node>, call: VisitorCall)
    ensures forall e :: e in ProcessingJobs(stroke, targets, call) ==>
      IsProcessingJob(e) && e.stroke == stroke && e.data.command.processing.visitor == call.visitor &&
      e.data.sequentiality == call.sequentiality && e.data.exclusivity == call.exclusivity
    ensures CountOf(ProcessingJobs(stroke, targets, call), IsProcessingJob) == |targets|
    ensures CountOf(ProcessingJobs(stroke, targets, call), IsUpdateJob) == 0
  {
    if targets != [] {
      ProcessingJobsShape(stroke, targets[1..], call);
      var rest := ProcessingJobs(stroke, targets[1..], call);
      assert ProcessingJobs(stroke, targets, call) == [ProcessingEvent(stroke, call, targets[0])] + rest;
      CountOfConcat([ProcessingEvent(stroke, call, targets[0])], rest, IsProcessingJob);
      CountOfConcat([ProcessingEvent(stroke, call, targets[0])], rest, IsUpdateJob);
    }
  }

  /** The jobs of `calls` are all jobs on `stroke`. */
  lemma {:induction false} CallJobsOnStroke(stroke: StrokeId, targets: seq<Node>, calls: seq<Submission>)
    ensures forall e :: e in CallJobs(stroke, targets, calls) ==> e.JobAdded? && e.stroke == stroke
    decreases |calls|
  {
    if calls != [] {
      var last := calls[|calls| - 1];
      CallJobsOnStroke(stroke, targets, calls[..|calls| - 1]);
      if last.Visit? {
        ProcessingJobsShape(stroke, targets, last.call);
      }
    }
  }

  lemma MulSucc(v: nat, t: nat)
    ensures (v + 1) * t == v * t + t
  {
  }

  /**
    Among the jobs of `calls` there are as many processing jobs per
    applyVisitor call as there are targets, and besides them only the
    processing jobs the client queued itself.
  */
  lemma {:induction false} CallJobsProcessingCount(stroke: StrokeId, targets: seq<Node>, calls: seq<Submission>)
    ensures CountOf(CallJobs(stroke, targets, calls), IsProcessingJob)
            == VisitCount(calls) * |targets| + CountOf(DirectJobs(stroke, calls), IsProcessingJob)
    decreases |calls|
  {
    if calls != [] {
      var init := calls[..|calls| - 1];
      var last := calls[|calls| - 1];
      assert calls == init + [last];
      CallJobsProcessingCount(stroke, targets, init);
      ProcessingCountStep(stroke, targets, init, last);
    }
  }

  /** One more client call keeps the processing-job count of CallJobsProcessingCount. */
  lemma ProcessingCountStep(stroke: StrokeId, targets: seq<Node>, init: seq<Submission>, last: Submission)
    requires CountOf(CallJobs(stroke, targets, init), IsProcessingJob)
             == VisitCount(init) * |targets| + CountOf(DirectJobs(stroke, init), IsProcessingJob)
    ensures CountOf(CallJobs(stroke, targets, init + [last]), IsProcessingJob)
            == VisitCount(init + [last]) * |targets| + CountOf(DirectJobs(stroke, init + [last]), IsProcessingJob)
  {
    var calls := init + [last];
    var lastJobs := SubmissionJobs(stroke, targets, last);
    assert calls[..|calls| - 1] == init;
    assert CallJobs(stroke, targets, calls) == CallJobs(stroke, targets, init) + lastJobs;
    CountOfConcat(CallJobs(stroke, targets, init), lastJobs, IsProcessingJob);
    var v, t := VisitCount(init), |targets|;
    if last.Visit? {
      assert CountOf(lastJobs, IsProcessingJob) == t by {
        ProcessingJobsShape(stroke, targets, last.call);
      }
      assert DirectJobs(stroke, calls) == DirectJobs(stroke, init);
      assert VisitCount(calls) == v + 1;
      MulSucc(v, t);
    } else {
      assert DirectJobs(stroke, calls) == DirectJobs(stroke, init) + lastJobs;
      assert VisitCount(calls) == v;
      CountOfConcat(DirectJobs(stroke, init), lastJobs, IsProcessingJob);
    }
  }

  /** The only update jobs among the jobs of `calls` are those the client queued itself. */
  lemma {:induction false} CallJobsUpdateCount(stroke: StrokeId, targets: seq<Node>, calls: seq<Submission>)
    ensures CountOf(CallJobs(stroke, targets, calls), IsUpdateJob)
            == CountOf(DirectJobs(stroke, calls), IsUpdateJob)
    decreases |calls|
  {
    if calls != [] {
      var init := calls[..|calls| - 1];
      var last := calls[|calls| - 1];
      var lastJobs := SubmissionJobs(stroke, targets, last);
      assert CallJobs(stroke, targets, calls) == CallJobs(stroke, targets, init) + lastJobs;
      CallJobsUpdateCount(stroke, targets, init);
      CountOfConcat(CallJobs(stroke, targets, init), lastJobs, IsUpdateJob);
      if last.Visit? {
        assert CountOf(lastJobs, IsUpdateJob) == 0 by {
          ProcessingJobsShape(stroke, targets, last.call);
        }
        assert DirectJobs(stroke, calls) == DirectJobs(stroke, init);
      } else {
        assert DirectJobs(stroke, calls) == DirectJobs(stroke, init) + lastJobs;
        CountOfConcat(DirectJobs(stroke, init), lastJobs, IsUpdateJob);
      }
    }
  }

  /**
    Everything an applicator submits belongs to the one stroke it opened, which
    it starts first and, once ended, closes last: no call on it follows the
    stroke end, and the final update is the job just before it.
  */
  lemma {:induction false} LifecycleBracketed(image: Image, stroke: StrokeId, name: string, node: Node,
                                              recursive: bool, calls: seq<Submission>, ended: bool)
    ensures var events := Lifecycle(image, stroke, name, node, recursive, calls, ended);
      && events[0] == StrokeStarted(stroke, name)
      && events[1] == JobAdded(stroke, UpdateJobData(image, node, recursive, false))
      && (forall e :: e in events ==> OnStroke(e, stroke))
      && (forall i :: 1 <= i < |events| ==> !events[i].StrokeStarted?)
      && (forall i :: 0 <= i < |events| && events[i].StrokeEnded? ==> ended && i == |events| - 1)
      && (ended ==> events[|events| - 2] == JobAdded(stroke, UpdateJobData(image, node, recursive, true))
                    && events[|events| - 1] == StrokeEnded(stroke))
  {
    var jobs := CallJobs(stroke, Targets(node, recursive), calls);
    var head := [StrokeStarted(stroke, name), JobAdded(stroke, UpdateJobData(image, node, recursive, false))];
    var tail := if ended then [JobAdded(stroke, UpdateJobData(image, node, recursive, true)), StrokeEnded(stroke)] else [];
    var events := Lifecycle(image, stroke, name, node, recursive, calls, ended);
    CallJobsOnStroke(stroke, Targets(node, recursive), calls);
    assert events == head + jobs + tail;
    forall i | 0 <= i < |events|
      ensures OnStroke(events[i], stroke)
      ensures i >= 1 ==> !events[i].StrokeStarted?
      ensures events[i].StrokeEnded? ==> ended && i == |events| - 1
    {
      if i < 2 {
        assert events[i] == head[i];
      } else if i < 2 + |jobs| {
        assert events[i] == jobs[i - 2];
        assert jobs[i - 2] in jobs;
      } else {
        assert events[i] == tail[i - 2 - |jobs|];
      }
    }
  }

  /**
    An applicator submits one leading update command, a final one exactly when
    it has ended, and between them one processing job per target of each
    applyVisitor call: one per call when not recursive, the subtree's size per
    call when recursive. Any other job is one the client queued itself.
  */
  lemma {:induction false} LifecycleCounts(image: Image, stroke: StrokeId, name: string, node: Node,
                                           recursive: bool, calls: seq<Submission>, ended: bool)
    ensures CountOf(Lifecycle(image, stroke, name, node, recursive, calls, ended), IsUpdateJob)
            == (if ended then 2 else 1) + CountOf(DirectJobs(stroke, calls), IsUpdateJob)
    ensures CountOf(Lifecycle(image, stroke, name, node, recursive, calls, ended), IsProcessingJob)
            == (if recursive then VisitCount(calls) * Size(node) else VisitCount(calls))
               + CountOf(DirectJobs(stroke, calls), IsProcessingJob)
  {
    var jobs := CallJobs(stroke, Targets(node, recursive), calls);
    var head := [StrokeStarted(stroke, name), JobAdded(stroke, UpdateJobData(image, node, recursive, false))];
    var tail := if ended then [JobAdded(stroke, UpdateJobData(image, node, recursive, true)), StrokeEnded(stroke)] else [];
    CallJobsProcessingCount(stroke, Targets(node, recursive), calls);
    CallJobsUpdateCount(stroke, Targets(node, recursive), calls);
    if recursive {
      PostOrderLength(node);
    }
    CountOfConcat(head, jobs, IsUpdateJob);
    CountOfConcat(head + jobs, tail, IsUpdateJob);
    CountOfConcat(head, jobs, IsProcessingJob);
    CountOfConcat(head + jobs, tail, IsProcessingJob);
    assert CountOf(head, IsUpdateJob) == 1;
    assert CountOf(head, IsProcessingJob) == 0;
    if ended {
      assert tail[1..] == [StrokeEnded(stroke)];
      assert CountOf(tail[1..], IsUpdateJob) == 0 && CountOf(tail[1..], IsProcessingJob) == 0;
    }
  }

  /**
    KisProcessingApplicator. `calls`, `ended` and `submitted` are bookkeeping of
    the model: the applyVisitor and applyCommand calls a client has made so far,
    whether end has been called, and the calls this applicator has made on the
    image.
  */
  class KisProcessingApplicator {
    const image: Image
    const node: Node
    const recursive: bool
    const strokeId: StrokeId
    ghost const name: string
    ghost var calls: seq<Submission>
    ghost var ended: bool
    ghost var submitted: seq<Event>

    /** Everything submitted so far is the lifecycle of the calls made so far. */
    ghost predicate Valid()
      reads this
    {
      submitted == Lifecycle(image, strokeId, name, node, recursive, calls, ended)
    }

    /** Opens a stroke, then queues the leading update command on it. */
    constructor (image: Image, node: Node, recursive: bool, name: string)
      modifies image
      ensures this.image == image && this.node == node && this.recursive == recursive && this.name == name
      ensures Valid() && calls == [] && !ended
      ensures image.log == old(image.log) + submitted
      ensures strokeId == old(image.strokeCount) && image.strokeCount == old(image.strokeCount) + 1
      ensures submitted == [StrokeStarted(strokeId, name), JobAdded(strokeId, UpdateJobData(image, node, recursive, false))]
    {
      this.image := image;
      this.node := node;
      this.recursive := recursive;
      this.name := name;
      var id := image.StartStroke(name);
      this.strokeId := id;
      calls := [];
      ended := false;
      submitted := [StrokeStarted(id, name)];
      new;
      QueueJob(UpdateJob(UpdateCommand(image, node, recursive, false)), UpdateSequentiality, UpdateExclusivity);
      submitted := submitted + [JobAdded(strokeId, UpdateJobData(image, node, recursive, false))];
    }

    /**
      Queues the visitor on the bound node, or on every node of its subtree in
      post-order when the applicator is recursive, all with the caller's tags.
      Calling it after end is a caller error the source does not check.
    */
    method ApplyVisitor(visitor: Visitor, sequentiality: Sequentiality, exclusivity: Exclusivity)
      requires Valid() && !ended
      modifies this, image
      ensures Valid() && !ended
      ensures calls == old(calls) + [Visit(VisitorCall(visitor, sequentiality, exclusivity))]
      ensures image.strokeCount == old(image.strokeCount)
      ensures image.log == old(image.log)
                           + ProcessingJobs(strokeId, Targets(node, recursive), VisitorCall(visitor, sequentiality, exclusivity))
      ensures submitted == old(submitted)
                           + ProcessingJobs(strokeId, Targets(node, recursive), VisitorCall(visitor, sequentiality, exclusivity))
    {
      var call := VisitorCall(visitor, sequentiality, exclusivity);
      ghost var jobs := ProcessingJobs(strokeId, Targets(node, recursive), call);
      if !recursive {
        QueueJob(ProcessingJob(ProcessingCommand(visitor, node)), sequentiality, exclusivity);
        assert jobs == [ProcessingEvent(strokeId, call, node)];
      } else {
        VisitRecursively(node, visitor, sequentiality, exclusivity);
      }
      LifecycleAddCall(image, strokeId, name, node, recursive, calls, Visit(call));
      calls := calls + [Visit(call)];
      submitted := submitted + jobs;
    }

    /** Queues the visitor on every node of the subtree at `n`: the children's subtrees first, then `n`. */
    method VisitRecursively(n: Node, visitor: Visitor, sequentiality: Sequentiality, exclusivity: Exclusivity)
      modifies image
      ensures image.log == old(image.log)
                           + ProcessingJobs(strokeId, PostOrder(n), VisitorCall(visitor, sequentiality, exclusivity))
      ensures image.strokeCount == old(image.strokeCount)
      decreases n
    {
      var call := VisitorCall(visitor, sequentiality, exclusivity);
      var i := 0;
      while i < |n.children|
        invariant 0 <= i <= |n.children|
        invariant image.log == old(image.log) + ProcessingJobs(strokeId, PostOrderForest(n.children[..i]), call)
        invariant image.strokeCount == old(image.strokeCount)
      {
        VisitRecursively(n.children[i], visitor, sequentiality, exclusivity);
        assert n.children[..i + 1] == n.children[..i] + [n.children[i]];
        PostOrderForestSnoc(n.children[..i], n.children[i]);
        ProcessingJobsConcat(strokeId, PostOrderForest(n.children[..i]), PostOrder(n.children[i]), call);
        i := i + 1;
      }
      assert n.children[..i] == n.children;
      QueueJob(ProcessingJob(ProcessingCommand(visitor, n)), sequentiality, exclusivity);
      ProcessingJobsConcat(strokeId, PostOrderForest(n.children), [n], call);
    }

    /**
      A client's applyCommand call: queues `command` as a job on this
      applicator's stroke, with the caller's tags. Calling it after end is a
      caller error the source does not check.
    */
    method ApplyCommand(command: Command, sequentiality: Sequentiality, exclusivity: Exclusivity)
      requires Valid() && !ended
      modifies this, image
      ensures Valid() && !ended
      ensures calls == old(calls) + [Direct(JobData(command, sequentiality, exclusivity))]
      ensures image.log == old(image.log) + [JobAdded(strokeId, JobData(command, sequentiality, exclusivity))]
      ensures submitted == old(submitted) + [JobAdded(strokeId, JobData(command, sequentiality, exclusivity))]
      ensures image.strokeCount == old(image.strokeCount)
    {
      var data := JobData(command, sequentiality, exclusivity);
      QueueJob(command, sequentiality, exclusivity);
      LifecycleAddCall(image, strokeId, name, node, recursive, calls, Direct(data));
      calls := calls + [Direct(data)];
      submitted := submitted + [JobAdded(strokeId, data)];
    }

    /**
      What applyCommand does, as the applicator's own calls use it: adds the
      job to the stroke, outside the client bookkeeping.
    */
    method QueueJob(command: Command, sequentiality: Sequentiality, exclusivity: Exclusivity)
      modifies image
      ensures image.log == old(image.log) + [JobAdded(strokeId, JobData(command, sequentiality, exclusivity))]
      ensures image.strokeCount == old(image.strokeCount)
    {
      image.AddJob(strokeId, JobData(command, sequentiality, exclusivity));
    }

    /**
      Queues the final update command, then ends the stroke. Calling it twice is
      a caller error the source does not check.
    */
    method End()
      requires Valid() && !ended
      modifies this, image
      ensures Valid() && ended && calls == old(calls)
      ensures image.strokeCount == old(image.strokeCount)
      ensures image.log == old(image.log)
                           + [JobAdded(strokeId, UpdateJobData(image, node, recursive, true)), StrokeEnded(strokeId)]
      ensures submitted == old(submitted)
                           + [JobAdded(strokeId, UpdateJobData(image, node, recursive, true)), StrokeEnded(strokeId)]
    {
      QueueJob(UpdateJob(UpdateCommand(image, node, recursive, true)), UpdateSequentiality, UpdateExclusivity);
      image.EndStroke(strokeId);
      LifecycleEnd(image, strokeId, name, node, recursive, calls);
      ended := true;
      submitted := submitted + [JobAdded(strokeId, UpdateJobData(image, node, recursive, true)), StrokeEnded(strokeId)];
    }
  }
  /**
    A non-recursive applicator given two visitors and then ended submits, in
    this order: the stroke start, the leading update, the first visitor's job,
    the second visitor's job, the final update and the stroke end.
  */
  method TwoVisitorsThenEnd(image: Image, node: Node, first: Visitor, second: Visitor, name: string)
    returns (applicator: KisProcessingApplicator)
    modifies image
    ensures applicator.image == image && applicator.ended
    ensures image.log == old(image.log) + [
      StrokeStarted(applicator.strokeId, name),
      JobAdded(applicator.strokeId, UpdateJobData(image, node, false, false)),
      JobAdded(applicator.strokeId, JobData(ProcessingJob(ProcessingCommand(first, node)), Sequential, Normal)),
      JobAdded(applicator.strokeId, JobData(ProcessingJob(ProcessingCommand(second, node)), Concurrent, Exclusive)),
      JobAdded(applicator.strokeId, UpdateJobData(image, node, false, true)),
      StrokeEnded(applicator.strokeId)]
  {
    applicator := new KisProcessingApplicator(image, node, false, name);
    applicator.ApplyVisitor(first, Sequential, Normal);
    applicator.ApplyVisitor(second, Concurrent, Exclusive);
    applicator.End();
  }
}
