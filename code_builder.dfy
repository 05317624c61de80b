/** The test suite's MLM code builder: a text buffer, initialised from a
    template, that the tests edit slot by slot before handing it to the
    compiler.  Each edit either takes effect or is refused with an error,
    leaving the buffer as it was.  The one exception is AddExpression, two
    edits in a row: when the second is refused, the first stays. */
module CodeBuilder {

  import opened Wrappers
  import opened SlotEdits

  /** The edit took effect, or it was refused and the text is as it was. */
  predicate Committed(before: string, after: string, err: Option<BuildError>, r: Outcome)
  {
    match r
    case Success(t) => after == t && err == None
    case Failure(e) => after == before && err == Some(e)
  }

  class ArdenCodeBuilder {
    var buffer: string

    /** A builder over a template, or over the output of another builder. */
    constructor (template: string)
      ensures buffer == template
    {
      buffer := template;
    }

    /** A builder for a version; when the template refuses the version, the
      error is reported and there is no builder. */
    static method ForVersion(version: ArdenVersion, templates: Templates)
        returns (b: ArdenCodeBuilder?, err: Option<BuildError>)
      ensures Initial(version, templates).Success? ==>
                err == None && b != null && fresh(b) && b.buffer == Initial(version, templates).text
      ensures Initial(version, templates).Failure? ==>
                err == Some(Initial(version, templates).error) && b == null
    {
      if version.V1? {
        b := new ArdenCodeBuilder(templates.version1);
        err := None;
        return;
      }
      var builder := new ArdenCodeBuilder(if version.fromV2_6 then templates.withResources else templates.plain);
      err := builder.SetArdenVersion(version);
      b := if err.None? then builder else null;
    }

    method RemoveSlot(slotname: string) returns (err: Option<BuildError>)
      modifies this
      ensures Committed(old(buffer), buffer, err, SlotEdits.RemoveSlot(old(buffer), slotname))
    {
      var slotIndex := IndexOf(buffer, Lower(slotname), 0);
      err := CheckSlotIndex(slotIndex, slotname);
      if err.None? {
        var endIndex := IndexOf(buffer, ";;", slotIndex.value);
        err := CheckSlotIndex(endIndex, slotname);
        if err.None? {
          buffer := Delete(buffer, slotIndex.value, endIndex.value + |";;"|);
        }
      }
    }

    method RenameSlot(slotname: string, newname: string) returns (err: Option<BuildError>)
      modifies this
      ensures Committed(old(buffer), buffer, err, SlotEdits.RenameSlot(old(buffer), slotname, newname))
    {
      var slotIndex := IndexOf(buffer, Lower(slotname), 0);
      err := CheckSlotIndex(slotIndex, slotname);
      if err.Some? {
        return;
      }
      var endIndex := slotIndex.value + |slotname|;
      buffer := Replace(buffer, slotIndex.value, endIndex, newname);
    }

    method InsertSlotContent(slotname: string, content: string, append: bool, ignoreCase: bool)
        returns (err: Option<BuildError>)
      modifies this
      ensures Committed(old(buffer), buffer, err,
                        SlotEdits.InsertSlotContent(old(buffer), slotname, content, append, ignoreCase))
    {
      var name := if ignoreCase then Lower(slotname) else slotname;
      var slotIndex := IndexOf(buffer, name, 0);
      err := CheckSlotIndex(slotIndex, name);
      if err.Some? {
        assert BodyOf(buffer, name).None?;
        return;
      }
      var startOfContent := slotIndex.value + |name|;
      var endOfContent := IndexOf(buffer, ";;", startOfContent);
      err := CheckSlotIndex(endOfContent, name);
      if err.Some? {
        assert BodyOf(buffer, name).None?;
        return;
      }
      assert BodyOf(buffer, name) == Some((startOfContent, endOfContent.value));
      var paddedContent := Pad(content);
      if append {
        buffer := Insert(buffer, endOfContent.value, paddedContent);
      } else {
        buffer := Replace(buffer, startOfContent, endOfContent.value, paddedContent);
      }
    }

    method ReplaceSlotContent(slotname: string, content: string) returns (err: Option<BuildError>)
      modifies this
      ensures Committed(old(buffer), buffer, err, SlotEdits.ReplaceSlotContent(old(buffer), slotname, content))
    {
      err := InsertSlotContent(slotname, content, false, true);
    }

    method AppendSlotContent(slotname: string, content: string) returns (err: Option<BuildError>)
      modifies this
      ensures Committed(old(buffer), buffer, err, SlotEdits.AppendSlotContent(old(buffer), slotname, content))
    {
      err := InsertSlotContent(slotname, content, true, true);
    }

    method ClearSlotContent(slotname: string) returns (err: Option<BuildError>)
      modifies this
      ensures Committed(old(buffer), buffer, err, SlotEdits.ClearSlotContent(old(buffer), slotname))
    {
      err := InsertSlotContent(slotname, "", false, true);
    }

    method AddData(dataCode: string) returns (err: Option<BuildError>)
      modifies this
      ensures Committed(old(buffer), buffer, err, SlotEdits.AppendSlotContent(old(buffer), "data:", dataCode))
    {
      err := AppendSlotContent("data:", dataCode);
    }

    method AddLogic(logicCode: string) returns (err: Option<BuildError>)
      modifies this
      ensures Committed(old(buffer), buffer, err, SlotEdits.AppendSlotContent(old(buffer), "logic:", logicCode))
    {
      err := AppendSlotContent("logic:", logicCode);
    }

    method AddEvoke(evokeCode: string) returns (err: Option<BuildError>)
      modifies this
      ensures Committed(old(buffer), buffer, err, SlotEdits.AppendSlotContent(old(buffer), "evoke:", evokeCode))
    {
      err := AppendSlotContent("evoke:", evokeCode);
    }

    method AddAction(actionCode: string) returns (err: Option<BuildError>)
      modifies this
      ensures Committed(old(buffer), buffer, err, SlotEdits.AppendSlotContent(old(buffer), "action:", actionCode))
    {
      err := AppendSlotContent("action:", actionCode);
    }

    /** The data statement goes into the data slot, then the action statement
        into the action slot; a refused data slot stops before the action
        slot, and a refused action slot keeps the data statement. */
    method AddExpression(expression: string) returns (err: Option<BuildError>)
      modifies this
      ensures var data := SlotEdits.AppendSlotContent(old(buffer), "data:", DataLine(expression));
              if data.Failure? then buffer == old(buffer) && err == Some(data.error)
              else Committed(data.text, buffer, err, SlotEdits.AppendSlotContent(data.text, "action:", ActionLine))
    {
      err := AddData(DataLine(expression));
      if err.Some? {
        return;
      }
      err := AddAction(ActionLine);
    }

    method AddMlm(mlmCode: string)
      modifies this
      ensures buffer == SlotEdits.AddMlm(old(buffer), mlmCode)
    {
      buffer := buffer + "\n";
      buffer := buffer + mlmCode;
    }

    method SetArdenVersion(version: ArdenVersion) returns (err: Option<BuildError>)
      modifies this
      ensures Committed(old(buffer), buffer, err, SlotEdits.SetArdenVersion(old(buffer), version))
    {
      if version.V1? {
        err := RemoveSlot("arden:");
        return;
      }
      err := ReplaceSlotContent("arden:", version.text);
    }

    method SetName(name: string) returns (err: Option<BuildError>)
      modifies this
      ensures Committed(old(buffer), buffer, err, SlotEdits.SetName(old(buffer), name))
    {
      if IndexOf(buffer, "mlmname:", 0).Some? {
        err := ReplaceSlotContent("mlmname:", name);
      } else {
        err := ReplaceSlotContent("filename:", name + ".mlm");
      }
    }

    method RemoveResourceSlots(lineSeparator: string) returns (err: Option<BuildError>)
      modifies this
      ensures Committed(old(buffer), buffer, err, SlotEdits.RemoveResourceSlots(old(buffer), lineSeparator))
    {
      var resourceIndex := IndexOf(buffer, "resources:", 0);
      if resourceIndex.None? {
        return Some(ResourcesNotFound);
      }
      var startIndex := resourceIndex.value + |"resources:"|;
      var endIndex := IndexOf(buffer, "end:", 0);
      if endIndex.None? || endIndex.value < startIndex {
        return Some(IndexOutOfBounds);
      }
      buffer := Replace(buffer, startIndex, endIndex.value, " " + lineSeparator);
      err := None;
    }

    method AppendDefaultSlot(languageCode: string, lineSeparator: string) returns (err: Option<BuildError>)
      modifies this
      ensures Committed(old(buffer), buffer, err, InsertBeforeEnd(old(buffer), DefaultSlot(languageCode, lineSeparator)))
    {
      var resourceSlot := DefaultSlot(languageCode, lineSeparator);
      var endIndex := IndexOf(buffer, "end:", 0);
      if endIndex.None? {
        return Some(IndexOutOfBounds);
      }
      buffer := Insert(buffer, endIndex.value, resourceSlot);
      err := None;
    }

    method AppendLanguageSlot(languageCode: string, lineSeparator: string) returns (err: Option<BuildError>)
      modifies this
      ensures Committed(old(buffer), buffer, err, InsertBeforeEnd(old(buffer), LanguageSlot(languageCode, lineSeparator)))
    {
      var resourceSlot := LanguageSlot(languageCode, lineSeparator);
      var endIndex := IndexOf(buffer, "end:", 0);
      if endIndex.None? {
        return Some(IndexOutOfBounds);
      }
      buffer := Insert(buffer, endIndex.value, resourceSlot);
      err := None;
    }

    method AddTextConstant(languageCode: string, key: string, value: string) returns (err: Option<BuildError>)
      modifies this
      ensures Committed(old(buffer), buffer, err, SlotEdits.AddTextConstant(old(buffer), languageCode, key, value))
    {
      var slotName := "language: " + languageCode;
      var textConstant := TextConstant(key, value);
      err := InsertSlotContent(slotName, textConstant, true, false);
    }

    method ToString() returns (s: string)
      ensures s == buffer
    {
      s := buffer;
    }
  }
}
