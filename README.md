# arden2bytecode: composite triggers, the test-code builder and list operators

This Dafny project models three parts of arden2bytecode, a compiler for the Arden Syntax for Medical Logic Modules (MLMs), and proves properties of each model.

**The composite "any-of" trigger** (`any_trigger.dfy`, module `Evoke`).
- An `AnyTrigger` holds a list of child triggers. It polls them for the earliest next run time and fires when any of them fires.
- It forwards every scheduled event to all of them. Each child records the event, and queues it when the child fires on it.
- It hands out the first pending event it finds and remembers which child held it (`activeTrigger`). That child's delay is the delay of the whole trigger, and 0 before any event has been taken.
- The `Trigger` interface and its concrete implementations are not part of this model. A child is therefore a `Trigger` object described by its contract:
  - a scheduling function from the execution context and its pending events to a next run time;
  - a firing predicate on events;
  - a delay;
  - a queue of pending events. `ScheduleEvent` appends an event the child fires on, and `GetTriggeringEvent` dequeues the head of the queue.

**The test-code builder** (`slot_edits.dfy`, module `SlotEdits`; `code_builder.dfy`, module `CodeBuilder`).
- `ArdenCodeBuilder` edits an MLM template held in a mutable text buffer. Each slot of the template is a name such as `data:`, followed by a body that ends with `;;`.
- The builder finds the first occurrence of a slot name and then the first `;;` after it. It deletes, renames, replaces or appends to what lies between. Inserted content is padded with a space on each side, so a space always comes before the slot's `;;` and the terminator cannot run into content that ends in `;`. Content that itself contains `;;` is inserted as it is.
- `SlotEdits` gives each edit as a function on strings. Its results are an `Outcome`: the new text, or the error the Java code would throw.
- The class `CodeBuilder.ArdenCodeBuilder` keeps a `buffer: string` field and mirrors the Java method by method. Each method is proved to commit exactly the outcome of its function: on success the buffer becomes the new text, and on an error the error is returned. An error leaves the buffer unchanged, except in `AddExpression`: when the `action:` slot is refused, the statement already added to `data:` stays, as in the Java code. `AddMlm` cannot fail.

**The aggregation and list operators** (`values.dfy`, `sequences.dfy`, `aggregation.dfy`, `aggregation_examples.dfy`).
- The operators are specified by the assertions of `AggregationOperatorsTest`. Their implementation is not part of this model.
- Every datum is a value (`Null`, `Bool`, `Num` over exact reals, `Str`, `List`) with an optional primary time. Times are integers, counting seconds since 1970-01-01.
- Each operator is a function whose contract states its meaning:
  - COUNT, EXIST, SUM, AVERAGE, VARIANCE and MEDIAN;
  - MINIMUM and MAXIMUM, FIRST and LAST, EARLIEST and LATEST, and the INDEX forms;
  - ANY, ALL and NO;
  - SEQTO, REVERSE, element selection and EXTRACT CHARACTERS.
- `AggregationExamples` reproduces each assertion of the test file not listed under "## Left out" as a lemma, over the test's data items u, v, w, x, y and z.

Where the Javadoc of `ArdenCodeBuilder(ArdenVersion)` and its code disagree, the model follows the code. The Javadoc says that versions from 2.9 on use the resources template. The code tests for at least 2.6 (`ArdenCodeBuilder.java:55`), so `Templates.withResources` is chosen by the `fromV2_6` flag.

## Model

| member | source | states |
|---|---|---|
| Evoke.Earlier | src/arden/runtime/evoke/AnyTrigger.java:29-30 | one step of the search: a missing time never wins, and of two times the earlier is kept |
| Evoke.Oldest | src/arden/runtime/evoke/AnyTrigger.java:24-35 | the oldest of a list of times is absent or one of them |
| Evoke.OldestNone | src/arden/runtime/evoke/AnyTrigger.java:24-35 | the oldest of the children's times is null iff every child's time is null |
| Evoke.OldestLeast | src/arden/runtime/evoke/AnyTrigger.java:29-31 | a non-null oldest time is one of the children's times and is no later than any non-null child time |
| Evoke.OldestIsLeast | src/arden/runtime/evoke/AnyTrigger.java:29-31 | conversely, a child time no later than every other child time is the result |
| Evoke.RunTimes | src/arden/runtime/evoke/AnyTrigger.java:27-28 | the list of the children's next run times, in list order |
| Evoke.FirstReady | src/arden/runtime/evoke/AnyTrigger.java:55-60 | the first child with a pending event: none iff every queue is empty, otherwise every earlier child's queue is empty |
| Evoke.AnyTrigger.constructor | src/arden/runtime/evoke/AnyTrigger.java:12-21 | a new composite holds the given children and has no active trigger |
| Evoke.AnyTrigger.GetNextRunTime | src/arden/runtime/evoke/AnyTrigger.java:24-35 | the loop returns the oldest of the children's run times (null children skipped, null when all are null) |
| Evoke.AnyTrigger.RunOnEvent | src/arden/runtime/evoke/AnyTrigger.java:38-45 | fires iff some child fires on the event |
| Evoke.AnyTrigger.ScheduleEvent | src/arden/runtime/evoke/AnyTrigger.java:48-52 | every child, firing or not, records the event once per occurrence in the list, and a child that fires on it queues that many copies; the active trigger is unchanged |
| Evoke.AnyTrigger.GetTriggeringEvent | src/arden/runtime/evoke/AnyTrigger.java:54-63 | returns the head of the first non-empty queue and records that child as active; only that queue shrinks and no child's record of received events changes; with all queues empty, returns null and changes nothing |
| Evoke.AnyTrigger.GetDelay | src/arden/runtime/evoke/AnyTrigger.java:66-71 | 0 without an active trigger, otherwise the active child's delay, which is the delay of one of the children |
| Evoke.TimeAndEventRunTime | src/arden/runtime/evoke/AnyTrigger.java:24-35 | a time trigger at noon combined with an idle event trigger runs at noon |
| Evoke.TimeAndEventFires | src/arden/runtime/evoke/AnyTrigger.java:38-45 | the combination fires exactly on the event trigger's event |
| Evoke.TimeAndEventScenario | src/arden/runtime/evoke/AnyTrigger.java:48-71 | after scheduling a matching event, the event is handed out once and the delay becomes the event trigger's; a second poll finds nothing and keeps that delay |
| Evoke.NoMatchScenario | src/arden/runtime/evoke/AnyTrigger.java:66-69 | a composite that never handed out an event has delay 0 |
| SlotEdits.IndexOf | test/arden/tests/specification/testcompiler/ArdenCodeBuilder.java:83 | `indexOf`: the first match at or after the start, or none iff the pattern does not occur there |
| SlotEdits.IndexOfFirst | test/arden/tests/specification/testcompiler/ArdenCodeBuilder.java:83 | any first match is the position `indexOf` returns |
| SlotEdits.Lower | test/arden/tests/specification/testcompiler/ArdenCodeBuilder.java:83 | `toLowerCase` keeps the length and maps A-Z to a-z |
| SlotEdits.Delete | test/arden/tests/specification/testcompiler/ArdenCodeBuilder.java:90 | `StringBuilder.delete(i, j)`: the text before i and from j on, joined |
| SlotEdits.Replace | test/arden/tests/specification/testcompiler/ArdenCodeBuilder.java:100 | `StringBuilder.replace(i, j, t)`: the text before i, then t, then the text from j on |
| SlotEdits.Insert | test/arden/tests/specification/testcompiler/ArdenCodeBuilder.java:125 | `StringBuilder.insert(i, t)`: the text before i, then t, then the rest |
| SlotEdits.CheckSlotIndex | test/arden/tests/specification/testcompiler/ArdenCodeBuilder.java:76-80 | not-found is an error naming the slot, anything else passes |
| SlotEdits.Pad | test/arden/tests/specification/testcompiler/ArdenCodeBuilder.java:123 | the content with one space on each side |
| SlotEdits.RemoveSlot | test/arden/tests/specification/testcompiler/ArdenCodeBuilder.java:82-92 | a missing slot name is an error naming the slot; a removal shortens the text |
| SlotEdits.RemoveSlotSpan | test/arden/tests/specification/testcompiler/ArdenCodeBuilder.java:82-91 | exactly the text from the first lowercased slot name through the next `;;` disappears; before and after are kept |
| SlotEdits.RemoveSlotUnterminated | test/arden/tests/specification/testcompiler/ArdenCodeBuilder.java:86-87 | a slot without a following `;;` is an error |
| SlotEdits.RenameSlot | test/arden/tests/specification/testcompiler/ArdenCodeBuilder.java:94-102 | an error iff the lowercased name is absent; the length changes by the difference of the names |
| SlotEdits.RenameSlotSpan | test/arden/tests/specification/testcompiler/ArdenCodeBuilder.java:94-101 | the old name's length of text at its first occurrence becomes the new name; the rest is kept |
| SlotEdits.BodyOf | test/arden/tests/specification/testcompiler/ArdenCodeBuilder.java:116-121 | where a slot body lies: after the name, up to a `;;` |
| SlotEdits.BodyAt | test/arden/tests/specification/testcompiler/ArdenCodeBuilder.java:116-121 | the body runs from the end of the first occurrence of the name to the first `;;` after it |
| SlotEdits.BodyUnterminated | test/arden/tests/specification/testcompiler/ArdenCodeBuilder.java:120-121 | a name without a following `;;` has no body |
| SlotEdits.InsertSlotContent | test/arden/tests/specification/testcompiler/ArdenCodeBuilder.java:114-131 | an error naming the searched name iff there is no body; appending grows the text by the content plus two |
| SlotEdits.InsertSlotContentUnterminated | test/arden/tests/specification/testcompiler/ArdenCodeBuilder.java:120-121 | a slot without a following `;;` is refused |
| SlotEdits.ReplaceSlotContent | test/arden/tests/specification/testcompiler/ArdenCodeBuilder.java:114-135 | no body under the lowercased name is an error naming it; otherwise the body becomes the padded content and the rest is kept |
| SlotEdits.AppendSlotContent | test/arden/tests/specification/testcompiler/ArdenCodeBuilder.java:114-139 | no body under the lowercased name is an error naming it; otherwise the padded content goes right before the `;;` |
| SlotEdits.ClearSlotContent | test/arden/tests/specification/testcompiler/ArdenCodeBuilder.java:114-143 | no body under the lowercased name is an error naming it; otherwise the body becomes two spaces |
| SlotEdits.SlotFound | test/arden/tests/specification/testcompiler/ArdenCodeBuilder.java:115-121 | a body found under the lowercased name starts after the original name's length |
| SlotEdits.ReplaceSlotSpan | test/arden/tests/specification/testcompiler/ArdenCodeBuilder.java:118-135 | replace mode: the text through the slot name and from the `;;` on is kept, and the body becomes the padded content |
| SlotEdits.AppendSlotSpan | test/arden/tests/specification/testcompiler/ArdenCodeBuilder.java:123-139 | append mode: the padded content goes just before the `;;` |
| SlotEdits.AppendKeepsBody | test/arden/tests/specification/testcompiler/ArdenCodeBuilder.java:123-125 | appending keeps the old body, and a space precedes the `;;`, so no `;;;` forms |
| SlotEdits.ClearSlotSpan | test/arden/tests/specification/testcompiler/ArdenCodeBuilder.java:141-143 | a cleared body is exactly two spaces before its `;;` |
| SlotEdits.ReplacedBody | test/arden/tests/specification/testcompiler/ArdenCodeBuilder.java:118-127 | after a replacement with content free of `;;`, the slot is found at the same place and ends right after the padded content |
| SlotEdits.ReplaceAfterReplace | test/arden/tests/specification/testcompiler/ArdenCodeBuilder.java:133-135 | replacing twice equals replacing with the second content, when the first is free of `;;` |
| SlotEdits.ReplaceIdempotent | test/arden/tests/specification/testcompiler/ArdenCodeBuilder.java:133-135 | replacing with content free of `;;` is idempotent |
| SlotEdits.ClearThenReplace | test/arden/tests/specification/testcompiler/ArdenCodeBuilder.java:141-143 | clearing before a replacement changes nothing |
| SlotEdits.RemoveResourceSlots | test/arden/tests/specification/testcompiler/ArdenCodeBuilder.java:187-196 | a missing `resources:` is its own error; a missing `end:`, or an `end:` before the end of `resources:`, is an index error |
| SlotEdits.RemoveResourceSlotsSpan | test/arden/tests/specification/testcompiler/ArdenCodeBuilder.java:187-195 | everything between `resources:` and `end:` becomes a space and the line separator |
| SlotEdits.InsertBeforeEnd | test/arden/tests/specification/testcompiler/ArdenCodeBuilder.java:198-210 | an error iff `end:` is absent; otherwise the text grows by the slot |
| SlotEdits.InsertBeforeEndSpan | test/arden/tests/specification/testcompiler/ArdenCodeBuilder.java:200-201 | the slot goes right before the first `end:` |
| SlotEdits.AddTextConstantSpan | test/arden/tests/specification/testcompiler/ArdenCodeBuilder.java:212-218 | the quoted key/value constant is appended to the body of the case-sensitive `language: <code>` slot |
| SlotEdits.AddTextConstant | test/arden/tests/specification/testcompiler/ArdenCodeBuilder.java:212-218 | no body under the case-sensitive `language: <code>` is an error naming it; otherwise the padded constant goes right before its `;;` |
| SlotEdits.SetArdenVersion | test/arden/tests/specification/testcompiler/ArdenCodeBuilder.java:171-176 | version 1 removes the `arden:` slot, any later version replaces its body by the version's name |
| SlotEdits.SetName | test/arden/tests/specification/testcompiler/ArdenCodeBuilder.java:178-185 | the name goes into `mlmname:` when that slot exists, otherwise `<name>.mlm` into `filename:` |
| SlotEdits.Initial | test/arden/tests/specification/testcompiler/ArdenCodeBuilder.java:52-63 | the version 1 template is used as it is; later versions set the `arden:` slot in the plain or the resources template |
| SlotEdits.AddMlm | test/arden/tests/specification/testcompiler/ArdenCodeBuilder.java:165-169 | the text, a newline, then the further MLM |
| CodeBuilder.ArdenCodeBuilder.constructor | test/arden/tests/specification/testcompiler/ArdenCodeBuilder.java:72-74 | the buffer starts as the given template |
| CodeBuilder.ArdenCodeBuilder.ForVersion | test/arden/tests/specification/testcompiler/ArdenCodeBuilder.java:52-63 | a builder whose buffer is the version's initial text, or no builder and the error |
| CodeBuilder.ArdenCodeBuilder.RemoveSlot | test/arden/tests/specification/testcompiler/ArdenCodeBuilder.java:82-92 | commits `SlotEdits.RemoveSlot`; the buffer is untouched on error |
| CodeBuilder.ArdenCodeBuilder.RenameSlot | test/arden/tests/specification/testcompiler/ArdenCodeBuilder.java:94-102 | commits `SlotEdits.RenameSlot` |
| CodeBuilder.ArdenCodeBuilder.InsertSlotContent | test/arden/tests/specification/testcompiler/ArdenCodeBuilder.java:114-131 | commits `SlotEdits.InsertSlotContent` |
| CodeBuilder.ArdenCodeBuilder.ReplaceSlotContent | test/arden/tests/specification/testcompiler/ArdenCodeBuilder.java:133-135 | commits the case-ignoring replacement |
| CodeBuilder.ArdenCodeBuilder.AppendSlotContent | test/arden/tests/specification/testcompiler/ArdenCodeBuilder.java:137-139 | commits the case-ignoring append |
| CodeBuilder.ArdenCodeBuilder.ClearSlotContent | test/arden/tests/specification/testcompiler/ArdenCodeBuilder.java:141-143 | commits the replacement by empty content |
| CodeBuilder.ArdenCodeBuilder.AddData | test/arden/tests/specification/testcompiler/ArdenCodeBuilder.java:145-147 | appends to the `data:` slot |
| CodeBuilder.ArdenCodeBuilder.AddLogic | test/arden/tests/specification/testcompiler/ArdenCodeBuilder.java:149-151 | appends to the `logic:` slot |
| CodeBuilder.ArdenCodeBuilder.AddEvoke | test/arden/tests/specification/testcompiler/ArdenCodeBuilder.java:153-155 | appends to the `evoke:` slot |
| CodeBuilder.ArdenCodeBuilder.AddAction | test/arden/tests/specification/testcompiler/ArdenCodeBuilder.java:157-159 | appends to the `action:` slot |
| CodeBuilder.ArdenCodeBuilder.AddExpression | test/arden/tests/specification/testcompiler/ArdenCodeBuilder.java:161-163 | `return_expression__ := e;` goes into `data:` and then `RETURN return_expression__;` into `action:`; a refused data slot stops before the action slot |
| CodeBuilder.ArdenCodeBuilder.AddMlm | test/arden/tests/specification/testcompiler/ArdenCodeBuilder.java:165-169 | the buffer becomes `SlotEdits.AddMlm` of the old one |
| CodeBuilder.ArdenCodeBuilder.SetArdenVersion | test/arden/tests/specification/testcompiler/ArdenCodeBuilder.java:171-176 | commits `SlotEdits.SetArdenVersion` |
| CodeBuilder.ArdenCodeBuilder.SetName | test/arden/tests/specification/testcompiler/ArdenCodeBuilder.java:178-185 | commits `SlotEdits.SetName` |
| CodeBuilder.ArdenCodeBuilder.RemoveResourceSlots | test/arden/tests/specification/testcompiler/ArdenCodeBuilder.java:187-196 | commits `SlotEdits.RemoveResourceSlots` |
| CodeBuilder.ArdenCodeBuilder.AppendDefaultSlot | test/arden/tests/specification/testcompiler/ArdenCodeBuilder.java:198-203 | `default: <code>;;` and the separator go before `end:` |
| CodeBuilder.ArdenCodeBuilder.AppendLanguageSlot | test/arden/tests/specification/testcompiler/ArdenCodeBuilder.java:205-210 | `language: <code>;; ` and the separator go before `end:` |
| CodeBuilder.ArdenCodeBuilder.AddTextConstant | test/arden/tests/specification/testcompiler/ArdenCodeBuilder.java:212-218 | commits `SlotEdits.AddTextConstant` |
| CodeBuilder.ArdenCodeBuilder.ToString | test/arden/tests/specification/testcompiler/ArdenCodeBuilder.java:220-223 | the buffer's text |
| ArdenValues.Items | test/arden/tests/specification/operators/AggregationOperatorsTest.java:25-27 | a scalar operand is a one-element list, a list is its elements |
| ArdenValues.Truth | test/arden/tests/specification/operators/AggregationOperatorsTest.java:172 | TRUE and FALSE are kept as they are; anything else is unknown |
| ArdenValues.DeMorgan3 | test/arden/tests/specification/operators/AggregationOperatorsTest.java:202-206 | NOT of a three-valued OR is the AND of the NOTs, on any values |
| Aggregation.Numbers | test/arden/tests/specification/operators/AggregationOperatorsTest.java:116 | the numbers of a list iff every element is a number |
| Aggregation.CommonTime | test/arden/tests/specification/operators/AggregationOperatorsTest.java:39-40 | the primary time shared by all elements, or none |
| Aggregation.LatestTimeOf | test/arden/tests/specification/operators/AggregationOperatorsTest.java:68-72 | the latest time among the elements equal to a value: one of their times and no earlier than any |
| Aggregation.Count | test/arden/tests/specification/operators/AggregationOperatorsTest.java:24-28 | the number of elements, NULL included, without time |
| Aggregation.HasValue | test/arden/tests/specification/operators/AggregationOperatorsTest.java:33-36 | some element is not NULL |
| Aggregation.NonNull | test/arden/tests/specification/operators/AggregationOperatorsTest.java:36 | the non-NULL elements, and only they |
| Aggregation.Exist | test/arden/tests/specification/operators/AggregationOperatorsTest.java:33-40 | TRUE iff some element is not NULL; timed by the non-NULL elements' common time |
| Aggregation.Sum | test/arden/tests/specification/operators/AggregationOperatorsTest.java:78-85 | a number iff all elements are numbers, with their common time; `SUM ()` is an untimed 0 and the sum of one number is that number |
| Aggregation.SumAppend | test/arden/tests/specification/operators/AggregationOperatorsTest.java:78-85 | the SUM of two lists of numbers put together is the sum of their SUMs |
| Aggregation.NumbersAppend | test/arden/tests/specification/operators/AggregationOperatorsTest.java:78-85 | two lists of numbers put together are all numbers, and their numbers follow in order |
| Aggregation.Average | test/arden/tests/specification/operators/AggregationOperatorsTest.java:45-53 | a number iff the list is non-empty and all numbers, with the common time |
| Aggregation.Variance | test/arden/tests/specification/operators/AggregationOperatorsTest.java:101-107 | a non-negative number iff there are at least two numbers, with the common time |
| Aggregation.VarianceOfConstant | test/arden/tests/specification/operators/AggregationOperatorsTest.java:101-107 | the VARIANCE of at least two equal numbers is 0 |
| Aggregation.SampleVarianceOfShifted | test/arden/tests/specification/operators/AggregationOperatorsTest.java:101-107 | the sample variance of numbers is unchanged when every number is shifted by the same amount |
| Aggregation.VarianceOfShifted | test/arden/tests/specification/operators/AggregationOperatorsTest.java:101-107 | VARIANCE, time included, is unchanged when every element's number is shifted by the same amount |
| Aggregation.Median | test/arden/tests/specification/operators/AggregationOperatorsTest.java:58-63 | a number iff the list is non-empty and all numbers |
| Aggregation.SortSorted | test/arden/tests/specification/operators/AggregationOperatorsTest.java:58 | sorting orders the values and is a permutation |
| Aggregation.InsertSorted | test/arden/tests/specification/operators/AggregationOperatorsTest.java:58 | insertion into a sorted list keeps it sorted and adds exactly the value |
| Aggregation.SortedUnique | test/arden/tests/specification/operators/AggregationOperatorsTest.java:58 | two sorted permutations of each other are equal |
| Aggregation.SortIs | test/arden/tests/specification/operators/AggregationOperatorsTest.java:58 | any sorted permutation of the values is their sort |
| Aggregation.MedianOfSorted | test/arden/tests/specification/operators/AggregationOperatorsTest.java:58-73 | MEDIAN is the middle (or the mean of the two middle) values of any sorted arrangement, with the median time |
| Aggregation.MedianValueIgnoresOrder | test/arden/tests/specification/operators/AggregationOperatorsTest.java:58 | the median value does not depend on the order of the operands |
| Aggregation.MedianBetweenExtrema | test/arden/tests/specification/operators/AggregationOperatorsTest.java:58-63 | MINIMUM <= MEDIAN <= MAXIMUM |
| Aggregation.SortedMiddleBetween | test/arden/tests/specification/operators/AggregationOperatorsTest.java:58-63 | when every value lies between two bounds, so does the middle value of their sort |
| Aggregation.MinPosition | test/arden/tests/specification/operators/AggregationOperatorsTest.java:287-290 | present iff the list is non-empty and all numbers; the position holds the smallest number, carries the latest time among its tied elements, and is the first such position |
| Aggregation.MaxPosition | test/arden/tests/specification/operators/AggregationOperatorsTest.java:291-294 | present iff the list is non-empty and all numbers; the position holds the largest number, carries the latest time among its tied elements, and is the first such position |
| Aggregation.Minimum | test/arden/tests/specification/operators/AggregationOperatorsTest.java:113-117 | one of the elements: the smallest number, timed by the latest of its tied elements; NULL on `()` or a mix |
| Aggregation.Maximum | test/arden/tests/specification/operators/AggregationOperatorsTest.java:118-124 | one of the elements: the largest number, timed by the latest of its tied elements; NULL on `()` or a mix |
| Aggregation.TiePosition | test/arden/tests/specification/operators/AggregationOperatorsTest.java:117-124 | an element holding the given number with the latest time among the elements holding it, and the first such |
| Aggregation.First | test/arden/tests/specification/operators/AggregationOperatorsTest.java:137-139 | NULL on `()`, otherwise the first element |
| Aggregation.Last | test/arden/tests/specification/operators/AggregationOperatorsTest.java:152-154 | NULL on `()`, otherwise the last element |
| Aggregation.EarliestPosition | test/arden/tests/specification/operators/AggregationOperatorsTest.java:222-223 | the first position with the smallest primary time, present iff the list is non-empty and all timed |
| Aggregation.LatestPosition | test/arden/tests/specification/operators/AggregationOperatorsTest.java:220-221 | the first position with the greatest primary time, present iff the list is non-empty and all timed |
| Aggregation.Earliest | test/arden/tests/specification/operators/AggregationOperatorsTest.java:222-223 | NULL unless the list is non-empty and all timed; otherwise the first element with the smallest primary time |
| Aggregation.Latest | test/arden/tests/specification/operators/AggregationOperatorsTest.java:220-221 | NULL unless the list is non-empty and all timed; otherwise the first element with the greatest primary time |
| Aggregation.IndexLocatesSelection | test/arden/tests/specification/operators/AggregationOperatorsTest.java:282-294 | INDEX EARLIEST, LATEST, MINIMUM and MAXIMUM give the 1-based position of the very element EARLIEST, LATEST, MINIMUM and MAXIMUM return, with its time, or NULL with it |
| Aggregation.IndexEarliest | test/arden/tests/specification/operators/AggregationOperatorsTest.java:282-284 | NULL iff there is no earliest position; otherwise the 1-based position of the element EARLIEST returns, with that element's time |
| Aggregation.IndexLatest | test/arden/tests/specification/operators/AggregationOperatorsTest.java:285-286 | NULL iff there is no latest position; otherwise the 1-based position of the element LATEST returns, with that element's time |
| Aggregation.IndexMinimum | test/arden/tests/specification/operators/AggregationOperatorsTest.java:287-290 | NULL iff there is no minimum position; otherwise the 1-based position of the element MINIMUM returns, with that element's time |
| Aggregation.IndexMaximum | test/arden/tests/specification/operators/AggregationOperatorsTest.java:291-294 | NULL iff there is no maximum position; otherwise the 1-based position of the element MAXIMUM returns, with that element's time |
| Aggregation.Any | test/arden/tests/specification/operators/AggregationOperatorsTest.java:169-174 | TRUE iff some element is TRUE, FALSE iff all are FALSE, else NULL; untimed |
| Aggregation.All | test/arden/tests/specification/operators/AggregationOperatorsTest.java:186-190 | FALSE iff some element is FALSE, TRUE iff all are TRUE, else NULL; untimed |
| Aggregation.No | test/arden/tests/specification/operators/AggregationOperatorsTest.java:202-206 | TRUE iff all elements are FALSE, FALSE iff some is TRUE, else NULL; untimed |
| Aggregation.AlgebraicTimeOfPair | test/arden/tests/specification/operators/AggregationOperatorsTest.java:39-107 | SUM, AVERAGE, VARIANCE and EXIST of two numbers keep their time iff the two times agree |
| Aggregation.AverageIsSumOverCount | test/arden/tests/specification/operators/AggregationOperatorsTest.java:45-85 | AVERAGE is SUM divided by COUNT |
| Aggregation.ExistIgnoresNulls | test/arden/tests/specification/operators/AggregationOperatorsTest.java:36 | EXIST does not see NULL elements |
| SequenceOperators.Range | test/arden/tests/specification/operators/AggregationOperatorsTest.java:259-264 | the integers from lo to hi, ascending |
| SequenceOperators.SeqTo | test/arden/tests/specification/operators/AggregationOperatorsTest.java:259-266 | a list iff both bounds are integers, NULL otherwise; the list holds the integers from a to b in ascending order, untimed |
| SequenceOperators.SeqToShape | test/arden/tests/specification/operators/AggregationOperatorsTest.java:259-264 | `a SEQTO b` is empty for a > b, one element for a = b, and otherwise holds a + i at every position i from 0 to b - a |
| SequenceOperators.Reverse | test/arden/tests/specification/operators/AggregationOperatorsTest.java:273-275 | REVERSE keeps the length and puts element N-1-i of the operand at i |
| SequenceOperators.ReverseSeq | test/arden/tests/specification/operators/AggregationOperatorsTest.java:273-275 | element i of the result is element N-1-i of the operand |
| SequenceOperators.ReverseReverse | test/arden/tests/specification/operators/AggregationOperatorsTest.java:273-275 | REVERSE twice gives the operand's elements back |
| SequenceOperators.LastIsFirstOfReverse | test/arden/tests/specification/operators/AggregationOperatorsTest.java:137-155 | LAST is FIRST of the reversed list |
| SequenceOperators.FlattenAll | test/arden/tests/specification/operators/AggregationOperatorsTest.java:241 | nested index lists flatten to list-free indices |
| SequenceOperators.FlattenAllFlat | test/arden/tests/specification/operators/AggregationOperatorsTest.java:240 | flattening leaves a flat index list unchanged |
| SequenceOperators.Lookup | test/arden/tests/specification/operators/AggregationOperatorsTest.java:237-243 | an integer index i within 1..N selects element i; any other index gives NULL |
| SequenceOperators.SelectAll | test/arden/tests/specification/operators/AggregationOperatorsTest.java:239-241 | one looked-up element per index |
| SequenceOperators.Element | test/arden/tests/specification/operators/AggregationOperatorsTest.java:237-243 | a scalar index selects one element; a list of indices selects one element per flattened index |
| SequenceOperators.SelectRangePrefix | test/arden/tests/specification/operators/AggregationOperatorsTest.java:242 | indexing by `1 SEQTO n` gives the first n elements |
| SequenceOperators.Strings | test/arden/tests/specification/operators/AggregationOperatorsTest.java:249-252 | a string iff every element is a string; the empty list gives the empty string and one string gives itself |
| SequenceOperators.StringsAppend | test/arden/tests/specification/operators/AggregationOperatorsTest.java:249-253 | the strings of two lists put together are the first list's followed by the second's |
| SequenceOperators.Characters | test/arden/tests/specification/operators/AggregationOperatorsTest.java:249 | one untimed one-character string per character |
| SequenceOperators.ExtractCharacters | test/arden/tests/specification/operators/AggregationOperatorsTest.java:249-252 | the characters of the concatenated strings, NULL when an element is not a string |
| SequenceOperators.StringOf | test/arden/tests/specification/operators/AggregationOperatorsTest.java:253 | STRING concatenates a list of strings |
| SequenceOperators.StringsOfCharacters | test/arden/tests/specification/operators/AggregationOperatorsTest.java:253 | the characters of a string concatenate back to it |
| SequenceOperators.StringOfExtractCharacters | test/arden/tests/specification/operators/AggregationOperatorsTest.java:249-253 | STRING after EXTRACT CHARACTERS returns the concatenated string |
| AggregationExamples.TestCount | test/arden/tests/specification/operators/AggregationOperatorsTest.java:24-28 | the COUNT assertions |
| AggregationExamples.TestExists | test/arden/tests/specification/operators/AggregationOperatorsTest.java:33-36 | the EXIST value assertions |
| AggregationExamples.TestTimeOfExists | test/arden/tests/specification/operators/AggregationOperatorsTest.java:39-40 | TIME EXIST of (x,y) and of (x,z) |
| AggregationExamples.TestAverage | test/arden/tests/specification/operators/AggregationOperatorsTest.java:45-53 | the numeric AVERAGE assertions and TIME AVERAGE |
| AggregationExamples.TestMedian | test/arden/tests/specification/operators/AggregationOperatorsTest.java:58-63 | the numeric MEDIAN assertions |
| AggregationExamples.TestTimeOfMedian | test/arden/tests/specification/operators/AggregationOperatorsTest.java:66-73 | TIME MEDIAN of (x,y,z), (x,y), (x,u,v), (v,x,w,u) and (x,z) |
| AggregationExamples.TestSum | test/arden/tests/specification/operators/AggregationOperatorsTest.java:78-85 | the numeric SUM assertions and TIME SUM |
| AggregationExamples.TestVariance | test/arden/tests/specification/operators/AggregationOperatorsTest.java:101-107 | the VARIANCE assertions and TIME VARIANCE |
| AggregationExamples.TestMinimum | test/arden/tests/specification/operators/AggregationOperatorsTest.java:113-116 | the MINIMUM value assertions |
| AggregationExamples.MinimumOfOperands | test/arden/tests/specification/operators/AggregationOperatorsTest.java:113-116 | MINIMUM of the test's number lists and of the mixed list |
| AggregationExamples.TestTimeOfMinimum | test/arden/tests/specification/operators/AggregationOperatorsTest.java:117 | TIME MINIMUM (x,y,z) |
| AggregationExamples.TestMaximum | test/arden/tests/specification/operators/AggregationOperatorsTest.java:118-121 | the MAXIMUM value assertions |
| AggregationExamples.MaximumOfOperands | test/arden/tests/specification/operators/AggregationOperatorsTest.java:118-121 | MAXIMUM of the test's number lists and of the mixed list |
| AggregationExamples.TestTimeOfMaximum | test/arden/tests/specification/operators/AggregationOperatorsTest.java:124 | TIME MAXIMUM (v,x,y) takes the latest of the tied elements |
| AggregationExamples.TestFirstLast | test/arden/tests/specification/operators/AggregationOperatorsTest.java:137-156 | the FIRST and LAST assertions, TIME LAST included |
| AggregationExamples.TestAny | test/arden/tests/specification/operators/AggregationOperatorsTest.java:169-174 | the ANY assertions |
| AggregationExamples.TestAll | test/arden/tests/specification/operators/AggregationOperatorsTest.java:186-190 | the ALL assertions |
| AggregationExamples.TestNo | test/arden/tests/specification/operators/AggregationOperatorsTest.java:202-206 | the NO assertions |
| AggregationExamples.TestLatestEarliest | test/arden/tests/specification/operators/AggregationOperatorsTest.java:220-223 | the LATEST and EARLIEST assertions |
| AggregationExamples.TestElementOfList | test/arden/tests/specification/operators/AggregationOperatorsTest.java:237-239 | element selection by a number, by `()` and by (1.5, 2) |
| AggregationExamples.TestElementOfIndices | test/arden/tests/specification/operators/AggregationOperatorsTest.java:240-241 | selection by (1,3,5) and by the nested (1,(3,5)) |
| AggregationExamples.TestElementOfRange | test/arden/tests/specification/operators/AggregationOperatorsTest.java:242 | selection by `1 SEQTO 3` |
| AggregationExamples.TestTimeOfElement | test/arden/tests/specification/operators/AggregationOperatorsTest.java:243 | TIME FIRST (x,y,z)[2,3] |
| AggregationExamples.TestExtractCharacters | test/arden/tests/specification/operators/AggregationOperatorsTest.java:249-252 | the EXTRACT CHARACTERS assertions |
| AggregationExamples.TestReverseCharacters | test/arden/tests/specification/operators/AggregationOperatorsTest.java:253 | STRING REVERSE EXTRACT CHARACTERS "abcde" |
| AggregationExamples.TestSeqto | test/arden/tests/specification/operators/AggregationOperatorsTest.java:259-266 | the SEQTO assertions but the product |
| AggregationExamples.TestReverse | test/arden/tests/specification/operators/AggregationOperatorsTest.java:273-275 | the REVERSE assertions |
| AggregationExamples.TestIndexOfTime | test/arden/tests/specification/operators/AggregationOperatorsTest.java:282-286 | INDEX EARLIEST, its time, and INDEX LATEST |
| AggregationExamples.TestIndexOfMinimum | test/arden/tests/specification/operators/AggregationOperatorsTest.java:287-290 | the INDEX MINIMUM assertions |
| AggregationExamples.IndexMinimumOfN12_13_14 | test/arden/tests/specification/operators/AggregationOperatorsTest.java:287 | INDEX MINIMUM of the list (12, 13, 14) |
| AggregationExamples.IndexMinimumOfScalars | test/arden/tests/specification/operators/AggregationOperatorsTest.java:288-290 | INDEX MINIMUM of the single number and of the mixed list |
| AggregationExamples.TestIndexOfMaximum | test/arden/tests/specification/operators/AggregationOperatorsTest.java:291-294 | the INDEX MAXIMUM assertions |
| AggregationExamples.IndexMaximumOfN12_13_14 | test/arden/tests/specification/operators/AggregationOperatorsTest.java:291 | INDEX MAXIMUM of the list (12, 13, 14) |
| AggregationExamples.IndexMaximumOfScalars | test/arden/tests/specification/operators/AggregationOperatorsTest.java:292-294 | INDEX MAXIMUM of the single number and of the mixed list |

## Left out

- The `Trigger` interface, the time-scheduled and event-driven triggers, and `ExecutionContext` beyond its current time are not part of this model. Children are `Evoke.Trigger` objects described by their contracts.
- Evoke.AnyTrigger.RunOnEvent: the Java loop stops at the first child that fires. The model's children have no side effect when queried, so the short-circuit cannot be observed and is not stated.
- Composite triggers nested inside composite triggers are not modelled, because a child is a `Trigger` object, never an `AnyTrigger`.
- Evoke.AnyTrigger.constructor: Java keeps the caller's `List<Trigger>` by reference. The model copies it into an immutable `triggers` sequence, so a later change to the caller's list is not seen by the composite.
- `readTemplate`, the three static templates and the resource stream are left out. The templates are a `Templates` parameter.
- `System.lineSeparator()` is left out. It is a `lineSeparator` parameter.
- SlotEdits.Lower: `toLowerCase` is modelled for ASCII letters only. No Unicode or locale case mapping.
- Exceptions are modelled as `BuildError` values:
  - `IllegalArgumentException` carries the slot name, but not its message text.
  - `StringIndexOutOfBoundsException` from a missing `end:` is `IndexOutOfBounds`.
  - Method chaining by `return this` becomes an `Option<BuildError>` result.
- `ArdenVersion` is not part of this model. A version is `V1` or a later version, which carries its name and whether it is 2.6 or newer.
- The STDDEV assertions and `MINIMUM`/`MAXIMUM ... USING COSINE/SINE OF IT` are left out. They need square roots and trigonometry, which exact reals do not provide.
- Numbers are Java `double` values in the source. The model uses exact `real` arithmetic, so rounding is not modelled.
- The `ANY IsTrue`, `ALL AreTrue` and `NO IsTrue` spellings are front-end syntax. Only their values are reproduced, by the plain `(TRUE,FALSE,FALSE)` cases of TestAny, TestAll and TestNo.
- Arithmetic on datetime and duration values is left out, as are the AVERAGE and MEDIAN of such values. Times occur only as primary times.
- `2 * (1 SEQTO 4)` is left out, because list arithmetic is not modelled.
- The `@Compatibility` version gating is left out. This includes the version 1 meaning of FIRST and LAST, and the `USING TIME OF IT` variants of LATEST and EARLIEST.
- The `assertInvalidExpression` cases are left out. They are rejections by the compiler front end, which is not part of this model.
- The test file does not fix some behaviour, so the model chooses it:
  - Aggregation.Median: when the two middle values of an even count differ, the time is kept only if both values' latest times agree.
  - Aggregation.EarliestPosition: EARLIEST and LATEST over a list with an untimed element give NULL.
  - Aggregation.PositionOf: an INDEX result carries the primary time of the element it points at. The test fixes this only for INDEX EARLIEST; the model does the same for the other INDEX operators.
  - Aggregation.MinPosition: INDEX MINIMUM and INDEX MAXIMUM break a tie as MINIMUM and MAXIMUM do, by the latest primary time and then by the first position.
- `TestCompilerImpl.java` is not part of this model.
- Aggregation.VarianceOfConstant: only one direction is proved, that equal numbers give 0. The converse, that a VARIANCE of 0 means all numbers are equal, needs strict positivity of a sum of squares, which the model does not prove.
