/** The edit-in-place text widget: every click flips the editing flag, and a
    click that leaves edit mode saves the input's text, whatever it is. */
module TextInput {
  import opened Values

  /** One `TextInput` instance. `input` is the text of the input element that
      `inputRef` points to, `None` while the ref is `null`; `saved` lists the
      arguments of every `onSave` call. */
  class TextField {
    var initValue: string
    var editing: bool
    var input: Option<string>
    var saved: seq<string>
    /** Number of clicks so far; ghost bookkeeping for the save count. */
    ghost var clicks: nat

    /** The input exists while editing, and there is one save per completed
        edit: a click enters, the next one leaves and saves. */
    ghost predicate Valid()
      reads this
    {
      && (editing ==> input.Some?)
      && editing == (clicks % 2 == 1)
      && |saved| == clicks / 2
    }

    constructor (initValue: string)
      ensures Valid()
      ensures this.initValue == initValue && !editing && input == None && saved == []
    {
      this.initValue := initValue;
      editing := false;
      input := None;
      saved := [];
      clicks := 0;
    }

    /** The user types into the input element. */
    method Type(text: string)
      requires Valid() && editing
      modifies this`input
      ensures Valid() && input == Some(text)
    {
      input := Some(text);
    }

    /** `handleButtonClick`: the flag flips; `onSave` runs when the click
        leaves edit mode, exactly once and without validation, and never when
        it enters edit mode. */
    method Click()
      requires Valid()
      modifies this`editing, this`input, this`saved, this`clicks
      ensures Valid() && initValue == old(initValue)
      ensures editing == !old(editing)
      ensures old(editing) ==> input == old(input) && saved == old(saved) + [old(input).value]
      ensures !old(editing) ==> input == Some(initValue) && saved == old(saved)
    {
      // setEditing(!editing) schedules the flip; the test below still reads
      // the value of `editing` from before the click.
      var wasEditing := editing;
      editing := !editing;
      clicks := clicks + 1;
      if wasEditing {
        saved := saved + [input.value];
      } else {
        input := Some(initValue);
      }
    }

    /** A later render after the input element has unmounted. */
    method Rerender(newInitValue: string)
      requires Valid()
      modifies this`input, this`initValue
      ensures Valid() && initValue == newInitValue
      ensures input == if editing then old(input) else None
    {
      initValue := newInitValue;
      if !editing {
        input := None;
      }
    }

    /** The text shown while viewing. */
    function Shown(): (r: string)
      reads this
      requires !editing
      ensures input.None? ==> r == initValue
      ensures input.Some? ==> r == input.value
    {
      input.GetOr(initValue)
    }
  }

  /** A client: any text, the empty one included, is saved by one edit. */
  method EditSession(init: string, text: string) returns (saved: seq<string>, shown: string)
    ensures saved == [text] && shown == text
  {
    var w := new TextField(init);
    w.Click();
    w.Type(text);
    w.Click();
    saved := w.saved;
    shown := w.Shown();
  }
}
