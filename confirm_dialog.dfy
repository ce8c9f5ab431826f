/** The confirmation-dialog helper of the service (`src/ndb/NDBCfmDlg.cc`): a
    state machine over whether a dialog is open (`active`) and what kind it is
    (`currActiveType`), guarded by `ForbiddenError`, `SymbolError` and
    `NullError` results. The libnickel dialog is a record of what was set on
    it; which symbols resolved, and whether the factories and allocations
    return null, are inputs. */
module ConfirmDialog {
  import opened Wrappers

  datatype DlgResult = Ok | NotImplemented | InitError | SymbolError | NullError | ForbiddenError

  datatype DialogType = TypeStd | TypeLineEdit | TypeTextEdit

  /** The libnickel symbols the helper resolves. */
  datatype Sym =
    | GetConfirmationDialog | SetTitle | SetText | SetAcceptButtonText | SetRejectButtonText
    | ShowCloseButton | SetRejectOnOutsideTap | AddWidget
    | LocalizedKeyboard | SetReceiver | LoadView | SetEnabled
    | KeyboardFrameCtor | CreateKeyboard | KeyboardReceiverLineEdit | TouchLineEditCtor

  /** The symbols `createDialog` needs. */
  const StdSymbols: set<Sym> := {GetConfirmationDialog, SetTitle, SetText, SetAcceptButtonText, SetRejectButtonText, SetRejectOnOutsideTap}

  /** The symbols `addLineEdit` needs. */
  const LineEditSymbols: set<Sym> := {TouchLineEditCtor, KeyboardReceiverLineEdit, AddWidget}

  /** The symbols `showDialog` needs for a dialog with a keyboard. */
  const KeyboardSymbols: set<Sym> := {CreateKeyboard, SetReceiver}

  /** What was set on the libnickel dialog. A button text left empty keeps
      Nickel's default (`None`). */
  datatype Dialog = Dialog(
    title: string, body: string, acceptText: Option<string>, rejectText: Option<string>,
    rejectOnOutsideTap: bool, modal: bool, widgets: nat, isOpen: bool, keyboardShown: bool,
    finishedHooked: bool)

  /** `DLG_ASSERT`'s message: the function name, a colon, the reason. */
  function Err(func: string, reason: string): string
  {
    func + ": " + reason
  }

  class CfmDlg {
    const resolved: set<Sym>
    const initResult: DlgResult
    var errString: string
    var active: bool
    var currActiveType: DialogType
    /** `dlg`: None is the null pointer. */
    var dlg: Option<Dialog>
    /** `lineEdit.te` and `lineEdit.kr` are allocated. */
    var lineEditCreated: bool
    var receiverCreated: bool
    /** The line edit is a child of the open dialog. */
    var lineEditAttached: bool
    var lineEditText: string

    /** The helper's states that can occur: an open dialog exists, a line-edit
      dialog has its line edit, and no text-edit dialog is ever made. */
    predicate Valid()
      reads this
    {
      && (active ==> dlg.Some?)
      && (currActiveType == TypeLineEdit ==> active && lineEditCreated && receiverCreated)
      && currActiveType != TypeTextEdit
    }

    /** The constructor. Without libnickel nothing is resolved and the result
      is `InitError`; `found` is the set of symbols `dlsym` finds. */
    constructor (libnickelLoaded: bool, found: set<Sym>)
      ensures initResult == (if libnickelLoaded then Ok else InitError)
      ensures resolved == (if libnickelLoaded then found else {})
      ensures !active && currActiveType == TypeStd && dlg.None? && errString == ""
      ensures !lineEditCreated && !receiverCreated && !lineEditAttached
      ensures Valid()
    {
      initResult := if libnickelLoaded then Ok else InitError;
      resolved := if libnickelLoaded then found else {};
      errString := "";
      active := false;
      currActiveType := TypeStd;
      dlg := None;
      lineEditCreated, receiverCreated, lineEditAttached := false, false, false;
      lineEditText := "";
    }

    /** `createDialog`. `factoryOk` is whether the dialog factory returns a
      dialog. */
    method CreateDialog(title: string, body: string, acceptText: string, rejectText: string,
                        tapOutsideClose: bool, factoryOk: bool) returns (r: DlgResult)
      requires Valid()
      modifies this`errString, this`active, this`currActiveType, this`dlg
      ensures Valid()
      ensures old(active) ==>
        r == ForbiddenError && errString == Err("createDialog", "dialog already open")
        && active && currActiveType == old(currActiveType) && dlg == old(dlg)
      ensures !old(active) && !(StdSymbols <= resolved) ==>
        r == SymbolError && errString == Err("createDialog", "could not find one or more standard dialog symbols")
        && !active && currActiveType == old(currActiveType) && dlg == old(dlg)
      ensures !old(active) && StdSymbols <= resolved && !factoryOk ==>
        r == NullError && errString == Err("createDialog", "could not get confirmation dialog")
        && !active && currActiveType == old(currActiveType) && dlg.None?
      ensures !old(active) && StdSymbols <= resolved && factoryOk ==>
        r == Ok && errString == old(errString) && active && currActiveType == TypeStd
        && dlg == Some(Dialog(title, body, if acceptText != "" then Some(acceptText) else None,
                              if rejectText != "" then Some(rejectText) else None,
                              tapOutsideClose, true, 0, false, false, false))
    {
      if active {
        errString := Err("createDialog", "dialog already open");
        return ForbiddenError;
      }
      if !(StdSymbols <= resolved) {
        errString := Err("createDialog", "could not find one or more standard dialog symbols");
        return SymbolError;
      }
      if !factoryOk {
        dlg := None;
        errString := Err("createDialog", "could not get confirmation dialog");
        return NullError;
      }
      var d := Dialog("", "", None, None, false, false, 0, false, false, false);
      active := true;
      currActiveType := TypeStd;
      d := d.(title := title, body := body, rejectOnOutsideTap := tapOutsideClose);
      if acceptText != "" {
        d := d.(acceptText := Some(acceptText));
      }
      if rejectText != "" {
        d := d.(rejectText := Some(rejectText));
      }
      d := d.(modal := true);
      dlg := Some(d);
      return Ok;
    }

    /** `showDialog`, called on the dialog just created. A dialog with a line
      or text edit first gets its keyboard (`frameFound`: the dialog has a
      keyboard frame; `controllerOk`: the keyboard is created). Then the
      dialog's `finished` signal is hooked to the clean-up slots and the
      dialog is opened. */
    method ShowDialog(frameFound: bool, controllerOk: bool) returns (r: DlgResult)
      requires Valid() && dlg.Some?
      modifies this`errString, this`dlg
      ensures Valid() && dlg.Some?
      ensures var keyboard := old(currActiveType) == TypeLineEdit || old(currActiveType) == TypeTextEdit;
        if keyboard && !(KeyboardSymbols <= resolved) then
          r == SymbolError && errString == Err("showDialog", "could not find one or more symbols") && dlg == old(dlg)
        else if keyboard && !frameFound then
          r == NullError && errString == Err("showDialog", "could not find KeyboardFrame") && dlg == old(dlg)
        else if keyboard && !controllerOk then
          r == NullError && errString == Err("showDialog", "could not get SearchKeyboardController") && dlg == old(dlg)
        else
          r == Ok && errString == old(errString)
          && dlg == Some(old(dlg).value.(keyboardShown := old(dlg).value.keyboardShown || keyboard,
                                         finishedHooked := true, isOpen := true))
    {
      var d := dlg.value;
      if currActiveType == TypeLineEdit || currActiveType == TypeTextEdit {
        if !(KeyboardSymbols <= resolved) {
          errString := Err("showDialog", "could not find one or more symbols");
          return SymbolError;
        }
        if !frameFound {
          errString := Err("showDialog", "could not find KeyboardFrame");
          return NullError;
        }
        if !controllerOk {
          errString := Err("showDialog", "could not get SearchKeyboardController");
          return NullError;
        }
        d := d.(keyboardShown := true);
      }
      d := d.(finishedHooked := true);
      d := d.(isOpen := true);
      dlg := Some(d);
      return Ok;
    }

    /** The dialog's `finished` signal (the user closed it, or `accept` was
      called): when hooked, the dialog is deactivated, its line edit
      detached, and the dialog deleted. */
    method DialogFinished()
      requires Valid() && dlg.Some?
      modifies this`active, this`currActiveType, this`lineEditAttached, this`dlg
      ensures Valid()
      ensures old(dlg.value.finishedHooked) ==>
        !active && currActiveType == TypeStd && dlg.None?
        && lineEditAttached == (old(lineEditAttached) && old(currActiveType) != TypeLineEdit)
      ensures !old(dlg.value.finishedHooked) ==>
        active == old(active) && currActiveType == old(currActiveType)
        && lineEditAttached == old(lineEditAttached) && dlg == Some(old(dlg.value).(isOpen := false))
    {
      if dlg.value.finishedHooked {
        DeactivateDialog();
        DetatchDialogTextLineEdit();
        dlg := None;
      } else {
        dlg := Some(dlg.value.(isOpen := false));
      }
    }

    /** `closeDialog`: accept the open dialog, which finishes it. */
    method CloseDialog() returns (r: DlgResult)
      requires Valid()
      modifies this`errString, this`active, this`currActiveType, this`lineEditAttached, this`dlg
      ensures Valid()
      ensures !old(active) ==>
        r == ForbiddenError && errString == Err("closeDialog", "dialog not open")
        && !active && currActiveType == old(currActiveType) && dlg == old(dlg)
      ensures old(active) ==> r == Ok && errString == old(errString)
      ensures old(active) && old(dlg.value.finishedHooked) ==>
        !active && currActiveType == TypeStd && dlg.None?
        && lineEditAttached == (old(lineEditAttached) && old(currActiveType) != TypeLineEdit)
      ensures old(active) && !old(dlg.value.finishedHooked) ==> active && currActiveType == old(currActiveType)
    {
      if !active {
        errString := Err("closeDialog", "dialog not open");
        return ForbiddenError;
      }
      DialogFinished();
      return Ok;
    }

    /** `deactivateDialog`. */
    method DeactivateDialog()
      modifies this`active
      ensures !active
    {
      active := false;
    }

    /** `detatchDialogTextLineEdit`: only a line-edit dialog gives its line
      edit back and becomes a standard one. */
    method DetatchDialogTextLineEdit()
      modifies this`currActiveType, this`lineEditAttached
      ensures old(currActiveType) == TypeLineEdit ==> currActiveType == TypeStd && !lineEditAttached
      ensures old(currActiveType) != TypeLineEdit ==> currActiveType == old(currActiveType) && lineEditAttached == old(lineEditAttached)
    {
      if currActiveType == TypeLineEdit {
        lineEditAttached := false;
        currActiveType := TypeStd;
      }
    }

    /** `updateBody`: only on an open standard dialog. */
    method UpdateBody(body: string) returns (r: DlgResult)
      requires Valid()
      modifies this`errString, this`dlg
      ensures Valid()
      ensures !active ==> r == ForbiddenError && errString == Err("updateBody", "dialog not open") && dlg == old(dlg)
      ensures active && currActiveType != TypeStd ==>
        r == ForbiddenError && errString == Err("updateBody", "not standard dialog") && dlg == old(dlg)
      ensures active && currActiveType == TypeStd && SetText !in resolved ==>
        r == SymbolError && errString == Err("updateBody", "could not find setText symbol") && dlg == old(dlg)
      ensures active && currActiveType == TypeStd && SetText in resolved ==>
        r == Ok && errString == old(errString) && dlg == Some(old(dlg).value.(body := body))
    {
      if !active {
        errString := Err("updateBody", "dialog not open");
        return ForbiddenError;
      }
      if currActiveType != TypeStd {
        errString := Err("updateBody", "not standard dialog");
        return ForbiddenError;
      }
      if SetText !in resolved {
        errString := Err("updateBody", "could not find setText symbol");
        return SymbolError;
      }
      dlg := Some(dlg.value.(body := body));
      return Ok;
    }

    /** `addLineEdit`: the line edit and its keyboard receiver are allocated
      only when absent (`editAllocOk`, `receiverAllocOk`: the allocations
      succeed), then cleared, added to the dialog, and the dialog becomes a
      line-edit dialog. */
    method AddLineEdit(editAllocOk: bool, receiverAllocOk: bool) returns (r: DlgResult)
      requires Valid()
      modifies this`errString, this`dlg, this`lineEditCreated, this`receiverCreated, this`lineEditAttached,
               this`lineEditText, this`currActiveType
      ensures Valid()
      ensures !active ==>
        r == ForbiddenError && errString == Err("addLineEdit", "dialog not active")
        && currActiveType == old(currActiveType) && lineEditCreated == old(lineEditCreated) && dlg == old(dlg)
      ensures active && !(LineEditSymbols <= resolved) ==>
        r == SymbolError && errString == Err("addLineEdit", "could not find symbols")
        && currActiveType == old(currActiveType) && lineEditCreated == old(lineEditCreated) && dlg == old(dlg)
      ensures active && LineEditSymbols <= resolved && !old(lineEditCreated) && !editAllocOk ==>
        r == NullError && errString == Err("addLineEdit", "could not allocate TouchLineEdit")
        && currActiveType == old(currActiveType) && !lineEditCreated && dlg == old(dlg)
      ensures active && LineEditSymbols <= resolved && (old(lineEditCreated) || editAllocOk)
              && !old(receiverCreated) && !receiverAllocOk ==>
        r == NullError && errString == Err("addLineEdit", "could not allocate KeyboardReceiver for TouchLineEdit")
        && currActiveType == old(currActiveType) && lineEditCreated && !receiverCreated && dlg == old(dlg)
      ensures r == Ok <==> active && LineEditSymbols <= resolved && (old(lineEditCreated) || editAllocOk)
                            && (old(receiverCreated) || receiverAllocOk)
      ensures r == Ok ==>
        errString == old(errString) && currActiveType == TypeLineEdit
        && lineEditCreated && receiverCreated && lineEditAttached && lineEditText == ""
        && dlg == Some(old(dlg).value.(widgets := old(dlg).value.widgets + 1))
    {
      if !active {
        errString := Err("addLineEdit", "dialog not active");
        return ForbiddenError;
      }
      if !(LineEditSymbols <= resolved) {
        errString := Err("addLineEdit", "could not find symbols");
        return SymbolError;
      }
      if !lineEditCreated {
        if !editAllocOk {
          errString := Err("addLineEdit", "could not allocate TouchLineEdit");
          return NullError;
        }
        lineEditCreated := true;
      }
      if !receiverCreated {
        if !receiverAllocOk {
          errString := Err("addLineEdit", "could not allocate KeyboardReceiver for TouchLineEdit");
          return NullError;
        }
        receiverCreated := true;
      }
      lineEditText := "";
      dlg := Some(dlg.value.(widgets := dlg.value.widgets + 1));
      lineEditAttached := true;
      currActiveType := TypeLineEdit;
      return Ok;
    }

    /** `addTextEdit`: not implemented, whatever the state. */
    method AddTextEdit() returns (r: DlgResult)
      ensures r == NotImplemented
    {
      return NotImplemented;
    }

    /** The user types into the line edit. */
    method EnterText(text: string)
      requires lineEditCreated
      modifies this`lineEditText
      ensures lineEditText == text
    {
      lineEditText := text;
    }

    /** `getText`: the line edit's text on an open line-edit dialog, else the
      empty string (with an error message when no dialog is open). */
    method GetText() returns (text: string)
      modifies this`errString
      ensures text == (if active && currActiveType == TypeLineEdit then lineEditText else "")
      ensures !active ==> errString == Err("getText", "dialog not active")
      ensures active ==> errString == old(errString)
    {
      if !active {
        errString := Err("getText", "dialog not active");
        return "";
      }
      if currActiveType == TypeLineEdit {
        return lineEditText;
      }
      return "";
    }
  }

  /** A whole line-edit session: create, add the line edit, show, type, read
      the text, then close. The text typed is the text read; afterwards no
      dialog is open, a new one may be created, and the line edit is kept for
      reuse but detached. */
  method LineEditSession(c: CfmDlg, title: string, typed: string) returns (read: string)
    requires c.Valid() && !c.active && StdSymbols <= c.resolved && LineEditSymbols <= c.resolved
    requires KeyboardSymbols <= c.resolved
    modifies c
    ensures read == typed
    ensures c.Valid() && !c.active && c.currActiveType == TypeStd && c.dlg.None?
    ensures c.lineEditCreated && c.receiverCreated && !c.lineEditAttached
  {
    var r := c.CreateDialog(title, "", "", "", true, true);
    assert r == Ok;
    r := c.AddLineEdit(true, true);
    assert r == Ok;
    r := c.ShowDialog(true, true);
    assert r == Ok;
    c.EnterText(typed);
    read := c.GetText();
    r := c.CloseDialog();
  }
}
