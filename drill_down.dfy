/** The drill-down dialog shared by the financial and operational pages:
    its state (open flag, rows, title), the capitalised headers and the
    shape of its cells. */
module DrillDown {
  import opened Common

  /** A drill-down cell: formatted text, or the field's value as is. */
  datatype DrillCell = Formatted(text: string) | Raw(value: Value)

  /** The header of each key: first character upper-cased, the rest kept. */
  function CapitalizeAll(keys: seq<string>): (headers: seq<string>)
    ensures |headers| == |keys|
    ensures forall i :: 0 <= i < |keys| ==> headers[i] == Capitalize(keys[i])
  {
    if keys == [] then [] else [Capitalize(keys[0])] + CapitalizeAll(keys[1..])
  }

  /** A capitalised header differs from its key at most in the first
      character, and only where that character is a lower-case letter. */
  lemma CapitalizeOnlyFirst(key: string)
    ensures |Capitalize(key)| == |key|
    ensures key != [] ==> Capitalize(key)[1..] == key[1..]
    ensures key != [] && !('a' <= key[0] <= 'z') && key[0] !in "áéíóúñ" ==> Capitalize(key) == key
  {
    if key != [] && !('a' <= key[0] <= 'z') && key[0] !in "áéíóúñ" {
      assert Capitalize(key) == [key[0]] + key[1..];
    }
  }

  /** `isDialogOpen`, `dialogData` and `dialogTitle`. */
  class DrillDownDialog {
    var isDialogOpen: bool
    var dialogData: seq<Record>
    var dialogTitle: string

    constructor ()
      ensures !isDialogOpen && dialogData == [] && dialogTitle == ""
    {
      isDialogOpen := false;
      dialogData := [];
      dialogTitle := "";
    }

    /** `handleShowData`: the rows and the title are stored and the dialog opens. */
    method HandleShowData(data: seq<Record>, title: string)
      modifies this
      ensures dialogData == data && dialogTitle == title && isDialogOpen
    {
      dialogData := data;
      dialogTitle := title;
      isDialogOpen := true;
    }

    /** The dialog's `onOpenChange`: rows and title stay as they were. */
    method SetOpen(open: bool)
      modifies this`isDialogOpen
      ensures isDialogOpen == open
    {
      isDialogOpen := open;
    }
  }
}
