/** The file picker (src/components/FileInput.tsx): a selection is checked for size,
    then for type, and only then handed on. `formatFileSize` is a parameter. */
module FileInput {
  import opened Wrappers
  import Strings

  /** A selected file: name, size in bytes and MIME type. */
  datatype File = File(name: string, size: int, mimeType: string)

  /** What the picker hands to its `onChange`: nothing, the whole list, or one file. */
  datatype Delivery = NoCall | Many(files: seq<File>) | One(file: File)

  /** The name shown in the picker: one name, or the list of names. */
  datatype ShownName = Single(name: string) | Names(names: seq<string>)

  datatype Verdict = Rejected(error: string) | Accepted | Ignored

  /** `maxSize &&`: a size limit of 0 or none disables the size check. */
  predicate SizeCheckOn(maxSize: Option<int>) {
    maxSize.Some? && maxSize.value != 0
  }

  predicate SomeTooLarge(files: seq<File>, maxSize: int) {
    exists i :: 0 <= i < |files| && files[i].size > maxSize
  }

  predicate SomeOfOtherType(files: seq<File>, types: seq<string>) {
    exists i :: 0 <= i < |files| && files[i].mimeType !in types
  }

  function Subject(multiple: bool): string {
    if multiple then "All of your files" else "Your file"
  }

  function SizeError(multiple: bool, limitText: string): string {
    Subject(multiple) + " size must be under " + limitText
  }

  function TypeError(multiple: bool, types: seq<string>): string {
    Subject(multiple) + " must be of the following types: " + Strings.Join(types, ", ")
  }

  /** The checks of the change handler, in order: size, then type, then non-empty. */
  function Check(files: seq<File>, multiple: bool, maxSize: Option<int>, types: Option<seq<string>>,
                 formatFileSize: int -> string): (v: Verdict)
    ensures SizeCheckOn(maxSize) && SomeTooLarge(files, maxSize.value) ==>
              v == Rejected(SizeError(multiple, formatFileSize(maxSize.value)))
    ensures !(SizeCheckOn(maxSize) && SomeTooLarge(files, maxSize.value)) &&
            types.Some? && SomeOfOtherType(files, types.value) ==>
              v == Rejected(TypeError(multiple, types.value))
    ensures v.Accepted? <==>
              files != [] &&
              (SizeCheckOn(maxSize) ==> forall i :: 0 <= i < |files| ==> files[i].size <= maxSize.value) &&
              (types.Some? ==> forall i :: 0 <= i < |files| ==> files[i].mimeType in types.value)
    ensures v.Ignored? <==> files == []
  {
    if SizeCheckOn(maxSize) && SomeTooLarge(files, maxSize.value) then
      Rejected(SizeError(multiple, formatFileSize(maxSize.value)))
    else if types.Some? && SomeOfOtherType(files, types.value) then
      Rejected(TypeError(multiple, types.value))
    else if files == [] then Ignored
    else Accepted
  }

  /** An empty list of allowed types rejects every non-empty selection. */
  lemma NoTypesRejectAll(files: seq<File>, multiple: bool, maxSize: Option<int>, formatFileSize: int -> string)
    requires files != []
    ensures Check(files, multiple, maxSize, Some([]), formatFileSize).Rejected?
  {
    assert files[0].mimeType !in [];
  }

  function FileNames(files: seq<File>): (names: seq<string>)
    ensures |names| == |files|
    ensures forall i :: 0 <= i < |files| ==> names[i] == files[i].name
  {
    seq(|files|, i requires 0 <= i < |files| => files[i].name)
  }

  const SizeHint := "Must be under "
  const TypesHint := "Must be of the following types: "
  const TypesHintContinued := "must be of the following types: "
  const HintJoin := " and "

  /** The hint after the description: the size limit, the allowed types, both joined
      with ` and ` (the second part then in lower case), or nothing. */
  function Requirements(maxSize: Option<int>, types: Option<seq<string>>, formatFileSize: int -> string): string {
    var sizeOn := SizeCheckOn(maxSize);
    if sizeOn || types.Some? then
      "(" + (if sizeOn then SizeHint + formatFileSize(maxSize.value) else "") +
      (if sizeOn && types.Some? then HintJoin else "") +
      (if types.Some? then
         (if sizeOn then TypesHintContinued else TypesHint) + Strings.Join(types.value, ", ")
       else "") +
      ")"
    else ""
  }

  lemma Regroup(a: string, b: string, c: string, d: string, e: string, f: string, g: string)
    ensures a + (b + c) + d + (e + f) + g == a + b + c + d + e + f + g
  {
  }

  /** With neither a size limit nor a type list there is no hint. */
  lemma RequirementsNone(maxSize: Option<int>, types: Option<seq<string>>, formatFileSize: int -> string)
    requires !SizeCheckOn(maxSize) && types.None?
    ensures Requirements(maxSize, types, formatFileSize) == ""
  {
  }

  /** A size limit alone. */
  lemma RequirementsSize(maxSize: Option<int>, types: Option<seq<string>>, formatFileSize: int -> string)
    requires SizeCheckOn(maxSize) && types.None?
    ensures Requirements(maxSize, types, formatFileSize) == "(" + SizeHint + formatFileSize(maxSize.value) + ")"
  {
    Regroup("(", SizeHint, formatFileSize(maxSize.value), "", "", "", ")");
  }

  /** A type list alone, capitalised. */
  lemma RequirementsTypes(maxSize: Option<int>, types: Option<seq<string>>, formatFileSize: int -> string)
    requires !SizeCheckOn(maxSize) && types.Some?
    ensures Requirements(maxSize, types, formatFileSize) == "(" + TypesHint + Strings.Join(types.value, ", ") + ")"
  {
    Regroup("(", "", "", "", TypesHint, Strings.Join(types.value, ", "), ")");
  }

  /** Both, joined with ` and ` and the second part in lower case. */
  lemma RequirementsBoth(maxSize: Option<int>, types: Option<seq<string>>, formatFileSize: int -> string)
    requires SizeCheckOn(maxSize) && types.Some?
    ensures Requirements(maxSize, types, formatFileSize) ==
            "(" + SizeHint + formatFileSize(maxSize.value) + HintJoin + TypesHintContinued +
            Strings.Join(types.value, ", ") + ")"
  {
    Regroup("(", SizeHint, formatFileSize(maxSize.value), HintJoin, TypesHintContinued,
            Strings.Join(types.value, ", "), ")");
  }

  /** The picker's state: the selection in the hidden input, the shown name and the error. */
  class Picker {
    var selection: seq<File>
    var shown: ShownName
    var error: string

    constructor ()
      ensures selection == [] && shown == Single("") && error == ""
    {
      selection, shown, error := [], Single(""), "";
    }

    /** The change handler. A rejected selection is cleared, reported and not handed on;
        an empty one changes nothing; an accepted one is handed on (all files, or the
        first), its names shown, the error cleared and the input emptied. */
    method OnChange(multiple: bool, maxSize: Option<int>, types: Option<seq<string>>, formatFileSize: int -> string)
      returns (delivered: Delivery)
      modifies this
      ensures Check(old(selection), multiple, maxSize, types, formatFileSize).Rejected? ==>
                delivered == NoCall && selection == [] && shown == old(shown) &&
                error == Check(old(selection), multiple, maxSize, types, formatFileSize).error
      ensures Check(old(selection), multiple, maxSize, types, formatFileSize).Ignored? ==>
                delivered == NoCall && unchanged(this)
      ensures Check(old(selection), multiple, maxSize, types, formatFileSize).Accepted? ==>
                selection == [] && error == "" &&
                (multiple ==> delivered == Many(old(selection)) && shown == Names(FileNames(old(selection)))) &&
                (!multiple ==> delivered == One(old(selection)[0]) && shown == Single(old(selection)[0].name))
    {
      var verdict := Check(selection, multiple, maxSize, types, formatFileSize);
      delivered := NoCall;
      match verdict
      case Rejected(message) =>
        selection := [];
        error := message;
      case Ignored =>
      case Accepted =>
        if multiple {
          shown := Names(FileNames(selection));
          delivered := Many(selection);
        } else {
          shown := Single(selection[0].name);
          delivered := One(selection[0]);
        }
        error := "";
        selection := [];
    }
  }
}
