# Krita text properties and processing applicator, in Dafny

This project models two parts of Krita and proves properties of them.

**SVG text properties** (`ko_svg_text.dfy`, module `KoSvgText`). These are the keyword parsers and writers for the SVG 1.1 chapter 10 text properties:

- writing-mode, direction and unicode-bidi (section 10.7);
- text-anchor, dominant-baseline, alignment-baseline and baseline-shift (section 10.9);
- the `lengthAdjust` attribute;
- lengths that may be `auto`.

This part also models `CharTransformation`, which holds the optional x, y, dx, dy and rotate of one character.

- Every parser is total. It returns its default exactly when the string is not one of its keywords.
- Every keyword writer is proved to be the parser's inverse: `Parse(Write(v)) == v`. The two writers that hand a number to a formatter outside this model round-trip only under conditions on that formatter: `AutoValueRoundTrip` needs the formatted number to differ from `auto` and to parse back to itself, and `BaselineShiftRoundTrip` needs the percentage text to be none of the keywords.
- `CharTransformation` is a class with five `Option<real>` fields.
  - `MergeInParentTransformation` updates those fields in place.
  - The position methods build their result step by step.
  - Each is proved against the value-level functions `Transform.Merged`, `Transform.Overridden` (the absolute x/y) and `Transform.Shifted` (the relative dx/dy).

**The processing applicator** (`processing_applicator.dfy`, module `ProcessingApplicator`). `KisProcessingApplicator` works as follows:

- It opens a stroke on an image and queues a leading `UpdateCommand`.
- `ApplyVisitor` queues one processing job per node. That is the bound node alone, or the bound node's subtree in post-order.
- `End` queues the final `UpdateCommand` and ends the stroke.

The image is a class that records every call made on it (`StartStroke`, `AddJob`, `EndStroke`, `RefreshGraphAsync`, a node's `SetDirty`) in `log`. The node tree is a datatype. A node's `children` sequence stands for its firstChild/nextSibling chain.

The applicator keeps ghost bookkeeping: the client's `calls` made so far (each an `ApplyVisitor` call or a direct `ApplyCommand` call), whether it has `ended`, and the calls it has `submitted` to the image. Its invariant `Valid()` says that `submitted` equals `Lifecycle(...)` of those calls. `Lifecycle` is the stroke start and the leading update, then the jobs of each call in turn, then the final update and the stroke end once ended. The applicator's own uses of applyCommand (in the constructor, `ApplyVisitor` and `End`) go through `QueueJob`, which queues the job without recording a client call. Lemmas about `Lifecycle` show three things. Every call goes to the one stroke the applicator opened. The stroke end comes last. The update and processing jobs are counted exactly: those the applicator queues for itself, plus those the client queued directly.

`wrappers.dfy` holds the `Option` type.

## Model

| member | source | states |
|---|---|---|
| KoSvgText.ParseAutoValue | libs/flake/text/KoSvgText.cpp:56-74 | the result is auto exactly when the string equals the auto keyword; otherwise it is the unit parser's number for that axis |
| KoSvgText.WriteAutoValue | libs/flake/text/KoSvgText.cpp:143-146 | an auto value is written as the auto keyword, a number through the formatter |
| KoSvgText.AutoValueRoundTrip | libs/flake/text/KoSvgText.cpp:143-146 | writing then parsing returns the value: always for auto, and for a number whenever its text is not the keyword and parses back to it |
| KoSvgText.ParseWritingMode | libs/flake/text/KoSvgText.cpp:76-80 | the result is LeftToRight (the default) exactly when the string is none of tb-rl, tb, rl-tb, rl |
| KoSvgText.WriteWritingMode | libs/flake/text/KoSvgText.cpp:148-151 | parsing what is written returns the same writing mode |
| KoSvgText.WritingModeAliases | libs/flake/text/KoSvgText.cpp:77-78 | tb-rl and tb both give TopToBottom, rl-tb and rl both give RightToLeft, and the short forms are the ones written |
| KoSvgText.ParseDirection | libs/flake/text/KoSvgText.cpp:82-84 | the result is right-to-left exactly for "rtl"; any other string gives left-to-right |
| KoSvgText.WriteDirection | libs/flake/text/KoSvgText.cpp:153-156 | parsing what is written returns the same direction |
| KoSvgText.ParseUnicodeBidi | libs/flake/text/KoSvgText.cpp:86-91 | the result is BidiNormal exactly when the string is neither "embed" nor "bidi-override" |
| KoSvgText.WriteUnicodeBidi | libs/flake/text/KoSvgText.cpp:158-161 | parsing what is written returns the same unicode-bidi value |
| KoSvgText.ParseTextAnchor | libs/flake/text/KoSvgText.cpp:93-98 | the result is AnchorStart exactly when the string is neither "middle" nor "end" |
| KoSvgText.WriteTextAnchor | libs/flake/text/KoSvgText.cpp:163-166 | parsing what is written returns the same anchor |
| KoSvgText.ParseDominantBaseline | libs/flake/text/KoSvgText.cpp:100-114 | the result is Auto exactly when the string is not one of the eleven keywords ("auto" itself is not one) |
| KoSvgText.WriteDominantBaseline | libs/flake/text/KoSvgText.cpp:168-182 | parsing what is written returns the same baseline; Auto is written "auto", which falls through to the Auto default |
| KoSvgText.ParseAlignmentBaseline | libs/flake/text/KoSvgText.cpp:116-128 | the result is Auto exactly when the string is not one of the eleven keywords, the after-edge and before-edge aliases included |
| KoSvgText.WriteAlignmentBaseline | libs/flake/text/KoSvgText.cpp:184-196 | parsing what is written returns the same baseline; Auto is written "auto" |
| KoSvgText.AlignmentBaselineAliases | libs/flake/text/KoSvgText.cpp:125-126 | after-edge and text-after-edge give the same value, and so do before-edge and text-before-edge; the long forms are the ones written |
| KoSvgText.ParseBaselineShiftMode | libs/flake/text/KoSvgText.cpp:130-136 | the result is ShiftPercentage exactly when the string is not "baseline", "sub" or "super" |
| KoSvgText.WriteBaselineShiftMode | libs/flake/text/KoSvgText.cpp:198-204 | the three keyword modes round-trip whatever the portion; a percentage is written by the formatter |
| KoSvgText.BaselineShiftRoundTrip | libs/flake/text/KoSvgText.cpp:198-204 | every mode round-trips once the formatted percentage is not one of the three keywords |
| KoSvgText.ParseLengthAdjust | libs/flake/text/KoSvgText.cpp:138-141 | the result is spacingAndGlyphs exactly for that string; anything else gives spacing |
| KoSvgText.WriteLengthAdjust | libs/flake/text/KoSvgText.cpp:206-209 | parsing what is written returns the same lengthAdjust value |
| KoSvgText.Transform.Merged | libs/flake/text/KoSvgText.cpp:217-238 | fields already set stay unchanged, unset fields take the parent's value, and afterwards a field is set exactly when it was set in the child or in the parent |
| KoSvgText.CharTransformation.MergeInParentTransformation | libs/flake/text/KoSvgText.cpp:217-238 | the new fields are the old ones merged with the parent's (as they were before the call), so the method is correct even when the parent is the object itself |
| KoSvgText.MergeNullParent | libs/flake/text/KoSvgText.cpp:217-238 | merging a parent with no field set changes nothing |
| KoSvgText.MergeIdempotent | libs/flake/text/KoSvgText.cpp:217-238 | merging the same parent twice equals merging it once |
| KoSvgText.MergeComposesOverrides | libs/flake/text/KoSvgText.cpp:217-238 | the absolute position of a merged transformation is the child's x/y applied over the parent's: the child wins where it sets a coordinate |
| KoSvgText.CharTransformation.IsNull | libs/flake/text/KoSvgText.cpp:240-243 | null holds exactly when the transformation equals one with no field set |
| KoSvgText.CharTransformation.AdjustedTextPos | libs/flake/text/KoSvgText.cpp:245-266 | the result is the relative offsets applied to pos after the x/y overrides; a null transformation leaves pos unchanged |
| KoSvgText.FullOverrideIgnoresPosition | libs/flake/text/KoSvgText.cpp:245-266 | with both x and y set, the adjusted position does not depend on the incoming position |
| KoSvgText.CharTransformation.StartsNewChunk | libs/flake/text/KoSvgText.cpp:268-271 | a transformation that starts no new chunk overrides no position |
| KoSvgText.OverrideMovesIffAbsolute | libs/flake/text/KoSvgText.cpp:268-271 | x or y is set exactly when some position is moved by the overrides |
| KoSvgText.CharTransformation.HasRelativeOffset | libs/flake/text/KoSvgText.cpp:273-276 | a transformation without relative offset shifts no position |
| KoSvgText.CharTransformation.AbsolutePos | libs/flake/text/KoSvgText.cpp:278-291 | the result is the x/y overrides applied to the origin (0, 0) |
| KoSvgText.CharTransformation.AdjustRelativePos | libs/flake/text/KoSvgText.cpp:293-306 | the result is pos moved by dx and dy, where set |
| KoSvgText.CharTransformation.Equals | libs/flake/text/KoSvgText.cpp:308-313 | two transformations are equal exactly when all five optional fields agree |
| ProcessingApplicator.UpdateCommand.UpdateEvents | krita/image/kis_processing_applicator.cpp:49-55 | an update refreshes the node's graph only when recursive, always before marking the node dirty over the image bounds, and makes no other call |
| ProcessingApplicator.UpdateCommand.Redo | krita/image/kis_processing_applicator.cpp:40-42 | redo performs the update exactly for the final command |
| ProcessingApplicator.UpdateCommand.Undo | krita/image/kis_processing_applicator.cpp:44-46 | undo performs the update exactly for the leading command |
| ProcessingApplicator.UpdateCommand.DoUpdate | krita/image/kis_processing_applicator.cpp:49-55 | the image receives exactly the update's calls, in order |
| ProcessingApplicator.UpdateInExactlyOneDirection | krita/image/kis_processing_applicator.cpp:40-46 | exactly one of redo and undo has any effect, and between them they perform the update once |
| ProcessingApplicator.PostOrderForestSnoc | krita/image/kis_processing_applicator.cpp:106-110 | walking one more sibling appends that sibling's subtree to the walk |
| ProcessingApplicator.PostOrderLength | krita/image/kis_processing_applicator.cpp:99-114 | the recursive walk visits as many nodes as the subtree has |
| ProcessingApplicator.PostOrderForestLength | krita/image/kis_processing_applicator.cpp:106-110 | walking a run of siblings visits as many nodes as their subtrees hold together |
| ProcessingApplicator.PostOrderSubtreesPrecede | krita/image/kis_processing_applicator.cpp:99-114 | every node in the walk comes right after the walk of its own subtree, so children are fully visited before their parent |
| ProcessingApplicator.PostOrderForestSubtreesPrecede | krita/image/kis_processing_applicator.cpp:106-110 | the same holds for a run of siblings walked one after another |
| ProcessingApplicator.PostOrderEndsAtRoot | krita/image/kis_processing_applicator.cpp:112-113 | the walk of a subtree ends at its root |
| ProcessingApplicator.PostOrderExample | krita/image/kis_processing_applicator.cpp:99-114 | a root R with children A and B, where B has the child C, is walked as A, C, B, R |
| ProcessingApplicator.Targets | krita/image/kis_processing_applicator.cpp:90-96 | a call targets the bound node alone when not recursive, and always ends with the bound node |
| ProcessingApplicator.ProcessingJobs | krita/image/kis_processing_applicator.cpp:112-113 | one job per target node |
| ProcessingApplicator.ProcessingJobsAt | krita/image/kis_processing_applicator.cpp:112-113 | the i-th job runs the caller's visitor on the i-th target, with the caller's tags, on the applicator's stroke |
| ProcessingApplicator.ProcessingJobsConcat | krita/image/kis_processing_applicator.cpp:106-113 | the jobs for two runs of targets are the jobs for the first run followed by those for the second |
| ProcessingApplicator.ProcessingJobsShape | krita/image/kis_processing_applicator.cpp:99-114 | all jobs of one call are processing jobs on the one stroke, with the same visitor and the same tags, one per target |
| ProcessingApplicator.CallJobsOnStroke | krita/image/kis_processing_applicator.cpp:86-125 | every job of the client's applyVisitor and applyCommand calls is added on the one stroke |
| ProcessingApplicator.CallJobsProcessingCount | krita/image/kis_processing_applicator.cpp:86-125 | the client's calls produce as many processing jobs per applyVisitor call as there are targets, plus the processing jobs the client queued itself through applyCommand |
| ProcessingApplicator.CallJobsUpdateCount | krita/image/kis_processing_applicator.cpp:86-125 | applyVisitor never queues an update command: the only update jobs among the client's calls are those it queued itself through applyCommand |
| ProcessingApplicator.LifecycleAddCall | krita/image/kis_processing_applicator.cpp:86-125 | each applyVisitor or applyCommand call appends its jobs after everything submitted before it |
| ProcessingApplicator.LifecycleEnd | krita/image/kis_processing_applicator.cpp:127-131 | end appends the final update and then the stroke end |
| ProcessingApplicator.LifecycleBracketed | krita/image/kis_processing_applicator.cpp:65-131 | all submissions use the one stroke id returned by startStroke; the stroke is started first and only once; once ended, the final update comes just before the stroke end, which comes last |
| ProcessingApplicator.LifecycleCounts | krita/image/kis_processing_applicator.cpp:65-131 | exactly one leading update and, exactly when ended, one final update, besides the update commands the client queued itself; one processing job per applyVisitor call when not recursive, the subtree size per call when recursive, besides the processing commands the client queued itself |
| ProcessingApplicator.KisProcessingApplicator.constructor | krita/image/kis_processing_applicator.cpp:65-79 | one stroke is started, with the image's next stroke id, and then exactly one job is queued on it: the non-final update for the bound node |
| ProcessingApplicator.KisProcessingApplicator.ApplyVisitor | krita/image/kis_processing_applicator.cpp:86-97 | the image receives one processing job for the bound node, or one per subtree node in post-order when recursive, all with the caller's tags, appended to what came before |
| ProcessingApplicator.KisProcessingApplicator.VisitRecursively | krita/image/kis_processing_applicator.cpp:99-114 | the subtree's jobs are queued in post-order: each child's subtree in sibling order, then the node |
| ProcessingApplicator.KisProcessingApplicator.ApplyCommand | krita/image/kis_processing_applicator.cpp:116-125 | a client's call adds exactly one job, on the applicator's stroke, with the given command and tags, and the lifecycle invariant still holds with that call recorded |
| ProcessingApplicator.KisProcessingApplicator.QueueJob | krita/image/kis_processing_applicator.cpp:116-125 | the applicator's own use of applyCommand adds exactly one job, on its stroke, with the given command and tags, and opens no stroke |
| ProcessingApplicator.KisProcessingApplicator.End | krita/image/kis_processing_applicator.cpp:127-131 | the final update is queued and only then is the same stroke ended |
| ProcessingApplicator.TwoVisitorsThenEnd | krita/image/kis_processing_applicator.cpp:65-131 | two visitor calls and end on a non-recursive applicator produce exactly: stroke start, leading update, first job, second job, final update, stroke end |

## Left out

- The static meta-type registrar and every `QDebug` stream operator in `KoSvgText.cpp` are left out. They are Qt registration and debug printing, and the background and stroke printers inspect classes that are not part of this model.
- `SvgUtil::parseUnitX/Y/XY/Angular`, `SvgUtil::toPercentage` and `KisDomUtils::toString` are foreign calls. They are function-typed parameters. The round-trip lemmas state as preconditions the only facts about them that they need.
- The four `parseAutoValue*` functions differ only in which unit parser they call. They are one function with an axis parameter.
- The enums, `AutoValue` and `CharTransformation`'s default constructor are declared in `KoSvgText.h`, which is not part of this model. The enums have exactly the values the `.cpp` file names. `AutoValue` is auto or a number. A default-constructed transformation has no field set.
- `qreal` is modelled as `real`, so floating-point rounding in the position methods is not modelled.
- The stroke scheduler is left out: asynchronous execution, ordering by tags, exclusivity and cancellation. The model stops at the submission of jobs.
- `KisStrokeStrategyUndoCommandBased` and the undo adapter are left out. Only the strategy's name is recorded with the stroke start.
- `KisProcessingCommand` and the visitor's behaviour are not part of this model. A processing job records only its visitor and its node.
- The effect of `refreshGraphAsync` and `setDirty` on rendering is not modelled. They are recorded as calls.
- Weak-pointer liveness of the image and the node is not modelled. The image and nodes are always live.
- The empty destructor is left out.
- The default tags of the update jobs are unspecified constants. Lines 78 and 129 call `applyCommand` without tags, and the header that declares the defaults is not part of this model.
- Calling `end` twice, or `applyVisitor` or `applyCommand` after `end`, is excluded by a precondition. Nothing in lines 86-131 checks for it.
- The layer tree is a value fixed when the applicator is built (`const node`). The source re-reads `firstChild` and `nextSibling` on every `visitRecursively` call (lines 106-109). The model, and the counts of `LifecycleCounts` (the subtree size per recursive call), therefore assume the tree does not change during the applicator's life.
- The image bounds are a constant of `Image` (`const bounds`). The source reads `m_image->bounds()` each time an update runs (line 54), so a resize between updates is not modelled.
