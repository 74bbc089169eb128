/** The media viewer (src/components/MediaDialog.tsx): stepping back and forth through a
    list of media with wrap-around, and deleting the current item. */
module MediaDialog {
  import opened Wrappers

  datatype MediaType = Image | Video

  /** A file shown in the dialog; `uploaded` is absent for files that cannot be deleted. */
  datatype DialogFile = DialogFile(url: string, kind: MediaType, uploaded: Option<bool>, driveId: Option<string>)

  datatype DialogState = DialogState(open: bool, index: int)

  /** JavaScript's `%`: the remainder takes the sign of the dividend. */
  function JsRem(a: int, n: int): (r: int)
    requires n > 0
    ensures -n < r < n
    ensures a >= 0 ==> r >= 0
    ensures a <= 0 ==> r <= 0
    ensures 0 <= a < 2 * n ==> r == if a < n then a else a - n
  {
    if a >= 0 then
      SmallRemainder(a, n);
      a % n
    else -((-a) % n)
  }

  /** The remainder of a number below twice the divisor. */
  lemma SmallRemainder(a: int, n: int)
    requires n > 0 && a >= 0
    ensures a < n ==> a % n == a
    ensures n <= a < 2 * n ==> a % n == a - n
  {
    var q, r := a / n, a % n;
    assert a == q * n + r && 0 <= r < n;
  }

  /** The Back button: `(index + n - 1) % n`, dialog open. */
  function Back(state: DialogState, n: int): (r: DialogState)
    requires n > 0
    ensures r.open
    ensures 0 <= state.index < n ==> r.index == if state.index == 0 then n - 1 else state.index - 1
  {
    DialogState(true, JsRem(state.index + n - 1, n))
  }

  /** The Next button: `(index + 1) % n`, dialog open. */
  function Next(state: DialogState, n: int): (r: DialogState)
    requires n > 0
    ensures r.open
    ensures 0 <= state.index < n ==> r.index == if state.index == n - 1 then 0 else state.index + 1
  {
    DialogState(true, JsRem(state.index + 1, n))
  }

  /** From any valid position, Back and Next stay on a valid position and undo each other. */
  lemma BackNextInverse(state: DialogState, n: int)
    requires n > 0 && 0 <= state.index < n
    ensures 0 <= Back(state, n).index < n && 0 <= Next(state, n).index < n
    ensures Next(Back(state, n), n).index == state.index
    ensures Back(Next(state, n), n).index == state.index
  {
  }

  /** `files.filter((_, i) => i !== k)` */
  function FilterOutIndex<T>(files: seq<T>, k: int): seq<T>
    decreases |files|
  {
    if files == [] then []
    else (if k == 0 then [] else [files[0]]) + FilterOutIndex(files[1..], k - 1)
  }

  /** The filter removes exactly the element at `k`, keeping the others in order. */
  lemma {:induction false} FilterOutIndexRemoves<T>(files: seq<T>, k: int)
    requires 0 <= k < |files|
    ensures FilterOutIndex(files, k) == files[..k] + files[k + 1..]
    decreases |files|
  {
    if k == 0 {
      FilterOutIndexKeeps(files[1..], -1);
    } else {
      FilterOutIndexRemoves(files[1..], k - 1);
      assert files[..k] == [files[0]] + files[1..][..k - 1];
      assert files[k + 1..] == files[1..][k..];
    }
  }

  /** With no element at `k`, the filter keeps everything. */
  lemma {:induction false} FilterOutIndexKeeps<T>(files: seq<T>, k: int)
    requires !(0 <= k < |files|)
    ensures FilterOutIndex(files, k) == files
    decreases |files|
  {
    if files != [] {
      FilterOutIndexKeeps(files[1..], k - 1);
      assert [files[0]] + files[1..] == files;
    }
  }

  /** The Delete button. Without `setFiles` nothing happens. Otherwise the current file
      is removed; deleting the last file moves back one place, or closes the dialog
      when it was the only one. */
  function Delete<T>(state: DialogState, files: seq<T>, canSetFiles: bool): (r: (DialogState, seq<T>))
    ensures !canSetFiles ==> r == (state, files)
    ensures canSetFiles && 0 <= state.index < |files| ==> r.1 == files[..state.index] + files[state.index + 1..]
    ensures canSetFiles && !(0 <= state.index < |files|) ==> r.1 == files
    ensures canSetFiles && state.index == |files| - 1 && state.index == 0 ==> r.0 == DialogState(false, 0)
    ensures canSetFiles && state.index == |files| - 1 && state.index != 0 ==>
              r.0 == DialogState(state.open, state.index - 1)
    ensures canSetFiles && state.index != |files| - 1 ==> r.0 == state
  {
    if !canSetFiles then (state, files)
    else
      var newState :=
        if state.index == |files| - 1 then
          if state.index == 0 then state.(open := false) else state.(index := state.index - 1)
        else state;
      if 0 <= state.index < |files| then
        FilterOutIndexRemoves(files, state.index);
        (newState, FilterOutIndex(files, state.index))
      else
        FilterOutIndexKeeps(files, state.index);
        (newState, FilterOutIndex(files, state.index))
  }

  /** A delete that leaves files behind leaves the index on one of them. */
  lemma DeleteKeepsIndexValid<T>(state: DialogState, files: seq<T>)
    requires 0 <= state.index < |files|
    requires |Delete(state, files, true).1| > 0
    ensures 0 <= Delete(state, files, true).0.index < |Delete(state, files, true).1|
  {
  }

  /** The Delete button is shown only for a current file whose `uploaded` flag is set. */
  predicate DeleteOffered(state: DialogState, files: seq<DialogFile>) {
    0 <= state.index < |files| && files[state.index].uploaded.Some?
  }
}
