/** The text surgery of the test suite's MLM code builder, on plain strings:
    find the first occurrence of a slot name, then the `;;` that ends the
    slot, and delete, replace or insert text around them. */
module SlotEdits {

  import opened Wrappers

  // ---------------------------------------------------------------------
  // Searching

  /** pat occurs in s starting at position i. */
  predicate MatchesAt(s: string, pat: string, i: nat)
  {
    i + |pat| <= |s| && s[i..i + |pat|] == pat
  }

  /** pat does not occur in s at or after position from. */
  predicate Absent(s: string, pat: string, from: nat)
  {
    forall j: nat :: from <= j <= |s| ==> !MatchesAt(s, pat, j)
  }

  /** i is the first position at or after from where pat occurs in s. */
  predicate FirstAt(s: string, pat: string, from: nat, i: nat)
  {
    from <= i && MatchesAt(s, pat, i) && forall j: nat :: from <= j < i ==> !MatchesAt(s, pat, j)
  }

  function Search(s: string, pat: string, from: nat): (r: Option<nat>)
    requires from <= |s|
    decreases |s| - from
    ensures r.Some? ==> FirstAt(s, pat, from, r.value)
    ensures r.None? <==> Absent(s, pat, from)
  {
    if MatchesAt(s, pat, from) then Some(from)
    else if from == |s| then None
    else Search(s, pat, from + 1)
  }

  /** The string search of the host library: the first position at or after
      from where pat occurs (a start past the end searches from the end), or
      none; the library's -1 is `None`. */
  function IndexOf(s: string, pat: string, from: nat): (r: Option<nat>)
    ensures r.Some? ==> MatchesAt(s, pat, r.value)
    ensures from <= |s| ==> (r.Some? ==> FirstAt(s, pat, from, r.value))
    ensures from <= |s| ==> (r.None? <==> Absent(s, pat, from))
  {
    Search(s, pat, if from <= |s| then from else |s|)
  }

  /** The first occurrence is the one the search finds. */
  lemma IndexOfFirst(s: string, pat: string, from: nat, i: nat)
    requires FirstAt(s, pat, from, i)
    ensures IndexOf(s, pat, from) == Some(i)
  {
    assert i + |pat| <= |s|;
    var r := IndexOf(s, pat, from);
    assert !Absent(s, pat, from) by {
      assert MatchesAt(s, pat, i);
    }
    assert r.Some?;
  }

  /** Lower-casing of the ASCII letters. */
  function LowerChar(c: char): (r: char)
    ensures 'A' <= c <= 'Z' ==> r as int == c as int + 32
    ensures !('A' <= c <= 'Z') ==> r == c
  {
    if 'A' <= c <= 'Z' then (c as int + 32) as char else c
  }

  function Lower(s: string): (r: string)
    ensures |r| == |s|
    ensures forall i :: 0 <= i < |s| ==> r[i] == LowerChar(s[i])
  {
    seq(|s|, i requires 0 <= i < |s| => LowerChar(s[i]))
  }

  // ---------------------------------------------------------------------
  // The host library's in-place edits, as functions of the text

  /** Deleting the characters from i up to (not including) j. */
  function Delete(s: string, i: nat, j: nat): (r: string)
    requires i <= j <= |s|
    ensures |r| == |s| - (j - i)
    ensures r[..i] == s[..i] && r[i..] == s[j..]
  {
    s[..i] + s[j..]
  }

  /** Replacing the characters from i up to j by t. */
  function Replace(s: string, i: nat, j: nat, t: string): (r: string)
    requires i <= j <= |s|
    ensures |r| == |s| - (j - i) + |t|
    ensures r[..i] == s[..i] && r[i..i + |t|] == t && r[i + |t|..] == s[j..]
  {
    s[..i] + t + s[j..]
  }

  /** Inserting t before position i. */
  function Insert(s: string, i: nat, t: string): (r: string)
    requires i <= |s|
    ensures |r| == |s| + |t|
    ensures r[..i] == s[..i] && r[i..i + |t|] == t && r[i + |t|..] == s[i..]
  {
    s[..i] + t + s[i..]
  }

  // ---------------------------------------------------------------------
  // Outcomes

  /** Why an edit was refused: a slot (named as the search saw it) or its
      terminating `;;` is missing, the resources category is missing, or the
      host library rejected a position. */
  datatype BuildError = SlotNotFound(slot: string) | ResourcesNotFound | IndexOutOfBounds

  /** An edit either produces the new text or is refused, leaving the text as it was. */
  datatype Outcome = Success(text: string) | Failure(error: BuildError)

  /** The slot check: a search that found nothing is an error naming the slot. */
  function CheckSlotIndex(index: Option<nat>, slotname: string): (r: Option<BuildError>)
    ensures r.None? <==> index.Some?
    ensures r.Some? ==> r.value == SlotNotFound(slotname)
  {
    if index.None? then Some(SlotNotFound(slotname)) else None
  }

  /** Slot content is padded with a space on both sides, so that it can never
      run into the terminating `;;`. */
  function Pad(content: string): (r: string)
    ensures |r| == |content| + 2 && r[0] == ' ' && r[|r| - 1] == ' '
    ensures r[1..|r| - 1] == content
  {
    " " + content + " "
  }

  // ---------------------------------------------------------------------
  // Slot edits

  /** removeSlot: deletes the slot from its (lower-cased) name through its `;;`. */
  function RemoveSlot(b: string, slotname: string): (r: Outcome)
    ensures Absent(b, Lower(slotname), 0) ==> r == Failure(SlotNotFound(slotname))
    ensures r.Failure? ==> r.error == SlotNotFound(slotname)
    ensures r.Success? ==> |r.text| < |b|
  {
    match IndexOf(b, Lower(slotname), 0)
    case None => Failure(SlotNotFound(slotname))
    case Some(i) =>
      match IndexOf(b, ";;", i)
      case None => Failure(SlotNotFound(slotname))
      case Some(j) => Success(Delete(b, i, j + 2))
  }

  /** Exactly the text from the first occurrence of the slot name through the
      first `;;` after it disappears; what precedes and follows is kept. */
  lemma RemoveSlotSpan(b: string, slotname: string, i: nat, j: nat)
    requires FirstAt(b, Lower(slotname), 0, i) && FirstAt(b, ";;", i, j)
    ensures RemoveSlot(b, slotname) == Success(b[..i] + b[j + 2..])
  {
    IndexOfFirst(b, Lower(slotname), 0, i);
    IndexOfFirst(b, ";;", i, j);
  }

  /** A slot without a terminating `;;` is refused. */
  lemma RemoveSlotUnterminated(b: string, slotname: string, i: nat)
    requires FirstAt(b, Lower(slotname), 0, i) && Absent(b, ";;", i)
    ensures RemoveSlot(b, slotname) == Failure(SlotNotFound(slotname))
  {
    IndexOfFirst(b, Lower(slotname), 0, i);
  }

  /** renameSlot: overwrites the slot name's characters with the new name. */
  function RenameSlot(b: string, slotname: string, newname: string): (r: Outcome)
    ensures Absent(b, Lower(slotname), 0) <==> r.Failure?
    ensures r.Failure? ==> r.error == SlotNotFound(slotname)
    ensures r.Success? ==> |r.text| == |b| - |slotname| + |newname|
  {
    match IndexOf(b, Lower(slotname), 0)
    case None => Failure(SlotNotFound(slotname))
    case Some(i) => Success(Replace(b, i, i + |slotname|, newname))
  }

  lemma RenameSlotSpan(b: string, slotname: string, newname: string, i: nat)
    requires FirstAt(b, Lower(slotname), 0, i)
    ensures RenameSlot(b, slotname, newname) == Success(b[..i] + newname + b[i + |slotname|..])
  {
    IndexOfFirst(b, Lower(slotname), 0, i);
  }

  /** Where the body of the slot `name` lies: from the end of the name's first
      occurrence up to the first `;;` after that; none when either is missing. */
  function BodyOf(b: string, name: string): (r: Option<(nat, nat)>)
    ensures Absent(b, name, 0) ==> r.None?
    ensures r.Some? ==> |name| <= r.value.0 <= r.value.1 && MatchesAt(b, ";;", r.value.1)
  {
    match IndexOf(b, name, 0)
    case None => None
    case Some(i) =>
      match IndexOf(b, ";;", i + |name|)
      case None => None
      case Some(j) => Some((i + |name|, j))
  }

  /** Where a slot's body lies: after the first occurrence of its name, up to
      the first `;;` after that. */
  predicate SlotBody(b: string, name: string, i: nat, j: nat)
  {
    FirstAt(b, name, 0, i) && FirstAt(b, ";;", i + |name|, j)
  }

  lemma BodyAt(b: string, name: string, i: nat, j: nat)
    requires SlotBody(b, name, i, j)
    ensures BodyOf(b, name) == Some((i + |name|, j))
  {
    IndexOfFirst(b, name, 0, i);
    IndexOfFirst(b, ";;", i + |name|, j);
  }

  /** A slot whose `;;` is missing has no body. */
  lemma BodyUnterminated(b: string, name: string, i: nat)
    requires FirstAt(b, name, 0, i) && Absent(b, ";;", i + |name|)
    ensures BodyOf(b, name).None?
  {
    IndexOfFirst(b, name, 0, i);
  }

  /** insertSlotContent: the padded content replaces the slot body, or is
      inserted just before the slot's `;;`.  The slot name is lower-cased
      first when case is ignored, and an error names it as searched. */
  function InsertSlotContent(b: string, slotname: string, content: string, append: bool, ignoreCase: bool): (r: Outcome)
    ensures var name := if ignoreCase then Lower(slotname) else slotname;
            (BodyOf(b, name).None? <==> r == Failure(SlotNotFound(name)))
            && (r.Failure? ==> r.error == SlotNotFound(name))
    ensures r.Success? && append ==> |r.text| == |b| + |content| + 2
  {
    var name := if ignoreCase then Lower(slotname) else slotname;
    match BodyOf(b, name)
    case None => Failure(SlotNotFound(name))
    case Some((start, j)) =>
      Success(if append then Insert(b, j, Pad(content)) else Replace(b, start, j, Pad(content)))
  }

  /** replaceSlotContent: the body of the slot, searched for in lower case,
      becomes the padded content. */
  function ReplaceSlotContent(b: string, slotname: string, content: string): (r: Outcome)
    ensures BodyOf(b, Lower(slotname)).None? ==> r == Failure(SlotNotFound(Lower(slotname)))
    ensures BodyOf(b, Lower(slotname)).Some? ==>
              var body := BodyOf(b, Lower(slotname)).value;
              r == Success(b[..body.0] + Pad(content) + b[body.1..])
  {
    InsertSlotContent(b, slotname, content, false, true)
  }

  /** appendSlotContent: the padded content goes at the end of the body of
      the slot, searched for in lower case, just before its `;;`. */
  function AppendSlotContent(b: string, slotname: string, content: string): (r: Outcome)
    ensures BodyOf(b, Lower(slotname)).None? ==> r == Failure(SlotNotFound(Lower(slotname)))
    ensures BodyOf(b, Lower(slotname)).Some? ==>
              var body := BodyOf(b, Lower(slotname)).value;
              r == Success(b[..body.1] + Pad(content) + b[body.1..])
  {
    InsertSlotContent(b, slotname, content, true, true)
  }

  /** clearSlotContent: the body of the slot, searched for in lower case,
      becomes two spaces. */
  function ClearSlotContent(b: string, slotname: string): (r: Outcome)
    ensures BodyOf(b, Lower(slotname)).None? ==> r == Failure(SlotNotFound(Lower(slotname)))
    ensures BodyOf(b, Lower(slotname)).Some? ==>
              var body := BodyOf(b, Lower(slotname)).value;
              r == Success(b[..body.0] + "  " + b[body.1..])
  {
    InsertSlotContent(b, slotname, "", false, true)
  }

  /** A slot whose terminating `;;` is missing is refused. */
  lemma InsertSlotContentUnterminated(b: string, name: string, content: string, append: bool, i: nat)
    requires FirstAt(b, name, 0, i) && Absent(b, ";;", i + |name|)
    ensures InsertSlotContent(b, name, content, append, false) == Failure(SlotNotFound(name))
  {
    BodyUnterminated(b, name, i);
  }

  /** Where the body is known, the edit is the replacement or insertion at it. */
  lemma InsertAtBody(b: string, slotname: string, content: string, append: bool, ignoreCase: bool,
                     start: nat, j: nat)
    requires BodyOf(b, if ignoreCase then Lower(slotname) else slotname) == Some((start, j))
    ensures j <= |b|
    ensures InsertSlotContent(b, slotname, content, append, ignoreCase)
            == Success(if append then b[..j] + Pad(content) + b[j..]
                       else b[..start] + Pad(content) + b[j..])
  {
  }

  /** The body of a slot searched for ignoring case. */
  lemma SlotFound(b: string, slotname: string, i: nat, j: nat)
    requires SlotBody(b, Lower(slotname), i, j)
    ensures BodyOf(b, Lower(slotname)) == Some((i + |slotname|, j))
  {
    BodyAt(b, Lower(slotname), i, j);
  }

  /** Replace mode: the body becomes exactly the padded content; the text up
      to the end of the slot name and from the `;;` on is kept. */
  lemma ReplaceSlotSpan(b: string, slotname: string, content: string, i: nat, j: nat)
    requires SlotBody(b, Lower(slotname), i, j)
    ensures ReplaceSlotContent(b, slotname, content) ==
            Success(b[..i + |slotname|] + Pad(content) + b[j..])
  {
    SlotFound(b, slotname, i, j);
    InsertAtBody(b, slotname, content, false, true, i + |slotname|, j);
  }

  /** Append mode: the padded content goes just before the `;;`, after the old body. */
  lemma AppendSlotSpan(b: string, slotname: string, content: string, i: nat, j: nat)
    requires SlotBody(b, Lower(slotname), i, j)
    ensures AppendSlotContent(b, slotname, content) == Success(b[..j] + Pad(content) + b[j..])
  {
    SlotFound(b, slotname, i, j);
    InsertAtBody(b, slotname, content, true, true, i + |slotname|, j);
  }

  /** Appending keeps the old body and ends the slot with a space before its
      `;;`, so no `;;;` can arise. */
  lemma AppendKeepsBody(b: string, slotname: string, content: string, i: nat, j: nat)
    requires SlotBody(b, Lower(slotname), i, j)
    ensures var t := AppendSlotContent(b, slotname, content).text;
            var end := j + |content| + 2;
            && t[..j] == b[..j]
            && t[i + |slotname|..j] == b[i + |slotname|..j]
            && t[end - 1] == ' ' && t[end..end + 2] == ";;"
  {
    AppendSlotSpan(b, slotname, content, i, j);
    var t := b[..j] + Pad(content) + b[j..];
    assert t[j + |content| + 2..] == b[j..];
  }

  /** Clearing leaves a body of exactly two spaces before the `;;`. */
  lemma ClearSlotSpan(b: string, slotname: string, i: nat, j: nat)
    requires SlotBody(b, Lower(slotname), i, j)
    ensures ClearSlotContent(b, slotname) == Success(b[..i + |slotname|] + "  " + b[j..])
    ensures b[j..j + 2] == ";;"
  {
    ReplaceSlotSpan(b, slotname, "", i, j);
    assert ClearSlotContent(b, slotname) == ReplaceSlotContent(b, slotname, "");
    assert Pad("") == "  ";
  }

  /** The positions of a body that was found. */
  lemma BodyFound(b: string, name: string) returns (i: nat, j: nat)
    requires BodyOf(b, name).Some?
    ensures SlotBody(b, name, i, j)
  {
    i := IndexOf(b, name, 0).value;
    j := IndexOf(b, ";;", i + |name|).value;
  }

  /** Text before the end of a name's first occurrence is all a search for
      the name looks at. */
  lemma FirstKept(b: string, t: string, name: string, i: nat)
    requires FirstAt(b, name, 0, i)
    requires |t| >= i + |name| && t[..i + |name|] == b[..i + |name|]
    ensures FirstAt(t, name, 0, i)
  {
    var start := i + |name|;
    assert t[i..start] == b[i..start];
    forall k: nat | k < i
      ensures !MatchesAt(t, name, k)
    {
      assert !MatchesAt(b, name, k);
      assert t[k..k + |name|] == b[k..k + |name|];
    }
  }

  /** Padded content free of `;;` followed by a `;;`: that `;;` is the first. */
  lemma TerminatorAfterPad(prefix: string, content: string, rest: string)
    requires Absent(content, ";;", 0) && MatchesAt(rest, ";;", 0)
    ensures FirstAt(prefix + Pad(content) + rest, ";;", |prefix|, |prefix| + |content| + 2)
  {
    var p := Pad(content);
    var t := prefix + p + rest;
    var start := |prefix|;
    var end := start + |p|;
    assert t[end..end + 2] == rest[..2];
    forall k: nat | start <= k < end
      ensures !MatchesAt(t, ";;", k)
    {
      if k == start {
        assert t[k] == p[0];
      } else if k + 1 == end {
        assert t[k] == p[|p| - 1];
      } else if k + 2 == end {
        assert t[k + 1] == p[|p| - 1];
      } else {
        assert t[k..k + 2] == p[k - start..k - start + 2];
        assert p[k - start..k - start + 2] == content[k - start - 1..k - start + 1];
        assert !MatchesAt(content, ";;", k - start - 1);
      }
    }
  }

  /** Replacing the body with padded content free of `;;` leaves the slot
      where it was, now ending right after that content. */
  lemma ReplacedBody(b: string, name: string, content: string, i: nat, j: nat) returns (t: string, j': nat)
    requires SlotBody(b, name, i, j) && Absent(content, ";;", 0)
    ensures t == b[..i + |name|] + Pad(content) + b[j..] && j' == i + |name| + |content| + 2
    ensures BodyOf(t, name) == Some((i + |name|, j'))
    ensures t[..i + |name|] == b[..i + |name|] && t[j'..] == b[j..]
  {
    var start := i + |name|;
    t := b[..start] + Pad(content) + b[j..];
    j' := start + |content| + 2;
    assert t[..start] == b[..start];
    FirstKept(b, t, name, i);
    TerminatorAfterPad(b[..start], content, b[j..]);
    BodyAt(t, name, i, j');
  }

  /** A replacement only looks at the slot's position and its `;;`, and a
      padded content without `;;` keeps both where a replacement finds them:
      replacing twice is the same as replacing with the second content. */
  lemma ReplaceAfterReplace(b: string, slotname: string, first: string, second: string)
    requires BodyOf(b, Lower(slotname)).Some?
    requires Absent(first, ";;", 0)
    ensures ReplaceSlotContent(ReplaceSlotContent(b, slotname, first).text, slotname, second)
            == ReplaceSlotContent(b, slotname, second)
  {
    var name := Lower(slotname);
    var i, j := BodyFound(b, name);
    var start := i + |name|;
    var t, j' := ReplacedBody(b, name, first, i, j);
    BodyAt(b, name, i, j);
    InsertAtBody(b, slotname, first, false, true, start, j);
    InsertAtBody(b, slotname, second, false, true, start, j);
    InsertAtBody(t, slotname, second, false, true, start, j');
  }

  /** Replacing with content free of `;;` is idempotent. */
  lemma ReplaceIdempotent(b: string, slotname: string, content: string)
    requires ReplaceSlotContent(b, slotname, content).Success?
    requires Absent(content, ";;", 0)
    ensures ReplaceSlotContent(ReplaceSlotContent(b, slotname, content).text, slotname, content)
            == ReplaceSlotContent(b, slotname, content)
  {
    ReplaceAfterReplace(b, slotname, content, content);
  }

  /** Clearing a slot before replacing its content changes nothing. */
  lemma ClearThenReplace(b: string, slotname: string, content: string)
    requires ClearSlotContent(b, slotname).Success?
    ensures ReplaceSlotContent(ClearSlotContent(b, slotname).text, slotname, content)
            == ReplaceSlotContent(b, slotname, content)
  {
    assert Absent("", ";;", 0);
    ReplaceAfterReplace(b, slotname, "", content);
  }

  // ---------------------------------------------------------------------
  // The resources category

  /** removeResourceSlots: everything between `resources:` and the first
      `end:` of the text becomes a space and a line separator.  A missing
      `resources:` is reported; a missing `end:`, or one before the end of
      `resources:`, is a position the host library rejects. */
  function RemoveResourceSlots(b: string, lineSeparator: string): (r: Outcome)
    ensures Absent(b, "resources:", 0) <==> r == Failure(ResourcesNotFound)
    ensures !Absent(b, "resources:", 0) && Absent(b, "end:", 0) ==> r == Failure(IndexOutOfBounds)
    ensures !Absent(b, "resources:", 0) && !Absent(b, "end:", 0)
            && IndexOf(b, "end:", 0).value < IndexOf(b, "resources:", 0).value + 10
            ==> r == Failure(IndexOutOfBounds)
  {
    match IndexOf(b, "resources:", 0)
    case None => Failure(ResourcesNotFound)
    case Some(i) =>
      var start := i + |"resources:"|;
      match IndexOf(b, "end:", 0)
      case None => Failure(IndexOutOfBounds)
      case Some(k) =>
        if k < start then Failure(IndexOutOfBounds)
        else Success(Replace(b, start, k, " " + lineSeparator))
  }

  lemma RemoveResourceSlotsSpan(b: string, lineSeparator: string, i: nat, k: nat)
    requires FirstAt(b, "resources:", 0, i) && FirstAt(b, "end:", 0, k)
    requires i + 10 <= k
    ensures RemoveResourceSlots(b, lineSeparator) == Success(b[..i + 10] + " " + lineSeparator + b[k..])
  {
    IndexOfFirst(b, "resources:", 0, i);
    IndexOfFirst(b, "end:", 0, k);
  }

  /** The text of a `default:` slot and of a `language:` slot. */
  function DefaultSlot(languageCode: string, lineSeparator: string): string
  {
    "default: " + languageCode + ";;" + lineSeparator
  }

  function LanguageSlot(languageCode: string, lineSeparator: string): string
  {
    "language: " + languageCode + ";; " + lineSeparator
  }

  /** appendDefaultSlot / appendLanguageSlot: a slot inserted just before the
      first `end:`; without one, the position -1 is rejected. */
  function InsertBeforeEnd(b: string, slot: string): (r: Outcome)
    ensures Absent(b, "end:", 0) <==> r.Failure?
    ensures r.Failure? ==> r.error == IndexOutOfBounds
    ensures r.Success? ==> |r.text| == |b| + |slot|
  {
    match IndexOf(b, "end:", 0)
    case None => Failure(IndexOutOfBounds)
    case Some(k) => Success(Insert(b, k, slot))
  }

  lemma InsertBeforeEndSpan(b: string, slot: string, k: nat)
    requires FirstAt(b, "end:", 0, k)
    ensures InsertBeforeEnd(b, slot) == Success(b[..k] + slot + b[k..])
  {
    IndexOfFirst(b, "end:", 0, k);
  }

  /** The text of a text constant: the quoted key, a colon and the double-quoted value. */
  function TextConstant(key: string, value: string): string
  {
    "'" + key + "': \"" + value + "\";"
  }

  /** addTextConstant: the constant is appended to the slot named exactly
      `language: ` followed by the code, case respected. */
  function AddTextConstant(b: string, languageCode: string, key: string, value: string): (r: Outcome)
    ensures var name := "language: " + languageCode;
            && (BodyOf(b, name).None? ==> r == Failure(SlotNotFound(name)))
            && (BodyOf(b, name).Some? ==>
                  var j := BodyOf(b, name).value.1;
                  r == Success(b[..j] + Pad(TextConstant(key, value)) + b[j..]))
  {
    InsertSlotContent(b, "language: " + languageCode, TextConstant(key, value), true, false)
  }

  lemma AddTextConstantSpan(b: string, languageCode: string, key: string, value: string, i: nat, j: nat)
    requires SlotBody(b, "language: " + languageCode, i, j)
    ensures AddTextConstant(b, languageCode, key, value) ==
            Success(b[..j] + Pad(TextConstant(key, value)) + b[j..])
  {
    BodyAt(b, "language: " + languageCode, i, j);
  }

  // ---------------------------------------------------------------------
  // Versions, names and expressions

  /** The Arden version a builder is set up for: version 1, or a later
      version given by the text of its `arden:` slot and by whether it is
      version 2.6 or later. */
  datatype ArdenVersion = V1 | Later(text: string, fromV2_6: bool)

  /** The three MLM templates a builder can start from. */
  datatype Templates = Templates(plain: string, version1: string, withResources: string)

  /** setArdenVersion: version 1 has no `arden:` slot; any later version
      writes its text into that slot. */
  function SetArdenVersion(b: string, version: ArdenVersion): (r: Outcome)
    ensures version.V1? ==> r == RemoveSlot(b, "arden:")
    ensures version.Later? ==> r == ReplaceSlotContent(b, "arden:", version.text)
  {
    if version.V1? then RemoveSlot(b, "arden:") else ReplaceSlotContent(b, "arden:", version.text)
  }

  /** setName: the name goes into the `mlmname:` slot when the text has one,
      and otherwise, with the extension `.mlm`, into the `filename:` slot. */
  function SetName(b: string, name: string): (r: Outcome)
    ensures !Absent(b, "mlmname:", 0) ==> r == ReplaceSlotContent(b, "mlmname:", name)
    ensures Absent(b, "mlmname:", 0) ==> r == ReplaceSlotContent(b, "filename:", name + ".mlm")
  {
    if IndexOf(b, "mlmname:", 0).Some? then ReplaceSlotContent(b, "mlmname:", name)
    else ReplaceSlotContent(b, "filename:", name + ".mlm")
  }

  /** The text a builder for a version starts with: the version 1 template
      as it is, or the template with or without resources category with the
      version written into it. */
  function Initial(version: ArdenVersion, templates: Templates): (r: Outcome)
    ensures version.V1? ==> r == Success(templates.version1)
    ensures version.Later? && version.fromV2_6 ==> r == SetArdenVersion(templates.withResources, version)
    ensures version.Later? && !version.fromV2_6 ==> r == SetArdenVersion(templates.plain, version)
  {
    if version.V1? then Success(templates.version1)
    else SetArdenVersion(if version.fromV2_6 then templates.withResources else templates.plain, version)
  }

  /** The data statement and the action statement of an expression test. */
  function DataLine(expression: string): string
  {
    "return_expression__ := " + expression + ";"
  }

  const ActionLine: string := "RETURN return_expression__;"

  /** addMlm: a newline and a further MLM after the text. */
  function AddMlm(b: string, mlmCode: string): (r: string)
    ensures |r| == |b| + 1 + |mlmCode|
    ensures r[..|b|] == b && r[|b|] == '\n' && r[|b| + 1..] == mlmCode
  {
    b + "\n" + mlmCode
  }
}
