/** The receipt list of `components/expenses/create-expense-dialog.jsx`: up
    to four picked files, appended from the file input, the "add more"
    picker, the camera and the dialog's `initialFile`, removed by index, and
    sent as the multipart fields `receipt`, `receipt2`, `receipt3`,
    `receipt4`. The four-file bound is enforced by the two pickers only. */
module CreateExpenseDialog {
  import opened Base
  import opened Dates
  import opened Domain

  const MaxFiles: nat := 4

  function Min(a: nat, b: nat): nat {
    if a <= b then a else b
  }

  /** `[...prev, ...newFiles].slice(0, 4)`. */
  function AppendCapped(prev: seq<File>, newFiles: seq<File>): (r: seq<File>)
    ensures |r| == Min(MaxFiles, |prev| + |newFiles|)
    ensures r == (prev + newFiles)[..|r|]
  {
    var combined := prev + newFiles;
    combined[..Min(MaxFiles, |combined|)]
  }

  /** Picking files never pushes the list past four, keeps the files already
      there (when there were at most four) in front, and takes new files in
      the order picked as long as room remains. */
  lemma AppendCappedKeeps(prev: seq<File>, newFiles: seq<File>)
    requires |prev| <= MaxFiles
    ensures |AppendCapped(prev, newFiles)| <= MaxFiles
    ensures AppendCapped(prev, newFiles)[..|prev|] == prev
    ensures AppendCapped(prev, newFiles)[|prev|..] == newFiles[..Min(MaxFiles - |prev|, |newFiles|)]
  {
    var r := AppendCapped(prev, newFiles);
    assert r == (prev + newFiles)[..|r|];
    assert (prev + newFiles)[..|prev|] == prev;
  }

  /** `prev.filter((_, i) => i !== index)`, element by element. */
  function RemoveAt(s: seq<File>, index: nat): (r: seq<File>)
    ensures |r| == if index < |s| then |s| - 1 else |s|
  {
    if s == [] then []
    else if index == 0 then s[1..]
    else [s[0]] + RemoveAt(s[1..], index - 1)
  }

  /** Removing drops exactly the file at `index` and keeps the others in
      order; an index past the end changes nothing. */
  lemma RemoveAtSlices(s: seq<File>, index: nat)
    ensures index < |s| ==> RemoveAt(s, index) == s[..index] + s[index + 1..]
    ensures index >= |s| ==> RemoveAt(s, index) == s
  {
    if index < |s| {
      RemoveAtInside(s, index);
    } else {
      RemoveAtBeyond(s, index);
    }
  }

  lemma {:induction false} RemoveAtInside(s: seq<File>, index: nat)
    requires index < |s|
    ensures RemoveAt(s, index) == s[..index] + s[index + 1..]
  {
    if index == 0 {
      assert s[..0] + s[1..] == s[1..];
    } else {
      RemoveAtInside(s[1..], index - 1);
      ConsSlices(s, index);
    }
  }

  lemma {:induction false} RemoveAtBeyond(s: seq<File>, index: nat)
    requires index >= |s|
    ensures RemoveAt(s, index) == s
  {
    if s != [] {
      RemoveAtBeyond(s[1..], index - 1);
      assert [s[0]] + s[1..] == s;
    }
  }

  /** Putting the head back in front of the slices of the tail. */
  lemma ConsSlices(s: seq<File>, i: nat)
    requires 0 < i < |s|
    ensures [s[0]] + (s[1..][..i - 1] + s[1..][i..]) == s[..i] + s[i + 1..]
  {
    var a, b := [s[0]] + (s[1..][..i - 1] + s[1..][i..]), s[..i] + s[i + 1..];
    assert |a| == |b|;
    forall k | 0 <= k < |a| ensures a[k] == b[k] {
      if k < i {
        assert b[k] == s[k];
      } else {
        assert b[k] == s[k + 1];
      }
    }
  }

  function AddInitial(s: seq<File>, initialFile: Option<File>): (r: seq<File>)
    ensures initialFile.Some? && initialFile.value !in s ==> r == s + [initialFile.value]
    ensures initialFile.None? || initialFile.value in s ==> r == s
  {
    if initialFile.Some? && initialFile.value !in s then s + [initialFile.value] else s
  }

  /** Running the effect again with the same file changes nothing. */
  lemma AddInitialIdempotent(s: seq<File>, initialFile: Option<File>)
    ensures AddInitial(AddInitial(s, initialFile), initialFile) == AddInitial(s, initialFile)
  {
    if initialFile.Some? {
      assert initialFile.value in AddInitial(s, initialFile);
    }
  }

  /** The multipart name of the file at position `index`; files from the
      fifth on have none and are not sent. */
  function ReceiptField(index: nat): (name: Option<string>)
    ensures name.Some? <==> index < MaxFiles
  {
    if index == 0 then Some("receipt")
    else if index == 1 then Some("receipt2")
    else if index == 2 then Some("receipt3")
    else if index == 3 then Some("receipt4")
    else None
  }

  /** The four names are distinct. */
  lemma ReceiptFieldsDistinct(i: nat, j: nat)
    requires i < j < MaxFiles
    ensures ReceiptField(i).value != ReceiptField(j).value
  {
  }

  /** The receipt fields of a create request: the first four files under
      their names, in list order. */
  function ReceiptFields(files: seq<File>): (p: Payload)
    ensures |p| == Min(MaxFiles, |files|)
    ensures forall i :: 0 <= i < |p| ==> p[i] == (ReceiptField(i).value, Attachment(files[i]))
  {
    var n := Min(MaxFiles, |files|);
    seq(n, i requires 0 <= i < n => (ReceiptField(i).value, Attachment(files[i])))
  }

  /** `submitData` of `handleSubmit`: the text fields, then the receipts. */
  function SubmitData(form: ExpenseForm, files: seq<File>): Payload {
    CreateFields(form) + ReceiptFields(files)
  }

  /** No `hst` field is sent, the title is the description, and exactly the
      first four files are attached. */
  lemma SubmitDataFields(form: ExpenseForm, files: seq<File>)
    ensures "hst" !in Names(SubmitData(form, files))
    ensures SubmitData(form, files)[0] == ("title", Str(form.description))
    ensures |SubmitData(form, files)| == 5 + Min(MaxFiles, |files|)
    ensures forall i :: 0 <= i < Min(MaxFiles, |files|) ==>
              SubmitData(form, files)[5 + i].1 == Attachment(files[i])
    ensures forall i :: 5 <= i < |SubmitData(form, files)| ==> SubmitData(form, files)[i].1.Attachment?
  {
    var a := CreateFields(form);
    CreateFieldsContent(form);
    forall i | 0 <= i < |a| ensures a[i].0 != "hst" {
      assert a[i].0 == Names(a)[i];
    }
    ReceiptsAfterText(a, ReceiptFields(files), files);
  }

  /** Receipts appended after text fields none of which is named `hst`. */
  lemma ReceiptsAfterText(a: Payload, b: Payload, files: seq<File>)
    requires |a| == 5 && forall i :: 0 <= i < |a| ==> a[i].0 != "hst"
    requires |b| == Min(MaxFiles, |files|)
    requires forall i :: 0 <= i < |b| ==> b[i] == (ReceiptField(i).value, Attachment(files[i]))
    ensures "hst" !in Names(a + b)
    ensures forall i :: 0 <= i < |b| ==> (a + b)[5 + i].1 == Attachment(files[i])
    ensures forall i :: 5 <= i < |a + b| ==> (a + b)[i].1.Attachment?
  {
    var names := Names(a + b);
    forall i | 0 <= i < |names| ensures names[i] != "hst" {
      if i >= 5 {
        assert (a + b)[i] == b[i - 5];
        ReceiptNameNotHst(i - 5);
      } else {
        assert (a + b)[i] == a[i];
      }
    }
    forall i | 5 <= i < |a + b| ensures (a + b)[i].1.Attachment? {
      assert (a + b)[i] == b[i - 5];
    }
  }

  /** No receipt name is `hst`. */
  lemma ReceiptNameNotHst(k: nat)
    requires k < MaxFiles
    ensures ReceiptField(k).value != "hst"
  {
  }

  /** The `selectedFiles.forEach` pass: appends each of the first four files
      under its field name and skips the rest. */
  method AppendReceipts(base: Payload, files: seq<File>) returns (data: Payload)
    ensures data == base + ReceiptFields(files)
  {
    data := base;
    for index := 0 to |files|
      invariant data == base + ReceiptFields(files[..Min(MaxFiles, index)])
    {
      ghost var before := data;
      if index == 0 {
        data := data + [("receipt", Attachment(files[index]))];
      } else if index == 1 {
        data := data + [("receipt2", Attachment(files[index]))];
      } else if index == 2 {
        data := data + [("receipt3", Attachment(files[index]))];
      } else if index == 3 {
        data := data + [("receipt4", Attachment(files[index]))];
      }
      ReceiptStep(base, files, index, before, data);
    }
    assert files[..Min(MaxFiles, |files|)] == files[..|files|][..Min(MaxFiles, |files|)];
    ReceiptPrefix(files, |files|);
  }

  /** More files than four add no fields. */
  lemma ReceiptPrefix(files: seq<File>, k: nat)
    requires k <= |files|
    requires MaxFiles <= k || k == |files|
    ensures ReceiptFields(files[..Min(MaxFiles, k)]) == ReceiptFields(files)
  {
    var a, b := ReceiptFields(files[..Min(MaxFiles, k)]), ReceiptFields(files);
    assert |a| == |b|;
    forall i | 0 <= i < |a| ensures a[i] == b[i] {
      assert files[..Min(MaxFiles, k)][i] == files[i];
    }
  }

  lemma ReceiptStep(base: Payload, files: seq<File>, index: nat, before: Payload, after: Payload)
    requires index < |files|
    requires before == base + ReceiptFields(files[..Min(MaxFiles, index)])
    requires index < MaxFiles ==> after == before + [(ReceiptField(index).value, Attachment(files[index]))]
    requires index >= MaxFiles ==> after == before
    ensures after == base + ReceiptFields(files[..Min(MaxFiles, index + 1)])
  {
    var prev, next := ReceiptFields(files[..Min(MaxFiles, index)]), ReceiptFields(files[..Min(MaxFiles, index + 1)]);
    if index < MaxFiles {
      assert |next| == |prev| + 1;
      forall i | 0 <= i < |prev| ensures next[i] == prev[i] {
        assert files[..index + 1][i] == files[..index][i];
      }
      assert next[index] == (ReceiptField(index).value, Attachment(files[index]));
      assert next == prev + [next[index]];
    } else {
      assert Min(MaxFiles, index) == Min(MaxFiles, index + 1);
      assert files[..Min(MaxFiles, index)] == files[..Min(MaxFiles, index + 1)];
    }
  }

  class Dialog {
    var selectedFiles: seq<File>
    var showCamera: bool
    var loading: bool
    var open: bool
    var form: ExpenseForm

    constructor (isOpen: bool, today: Date)
      ensures selectedFiles == [] && !showCamera && !loading && open == isOpen && form == EmptyForm(today)
    {
      selectedFiles := [];
      showCamera := false;
      loading := false;
      open := isOpen;
      form := EmptyForm(today);
    }

    /** The `initialFile` effect. */
    method InitialFileEffect(initialFile: Option<File>)
      modifies this
      ensures selectedFiles == AddInitial(old(selectedFiles), initialFile)
      ensures showCamera == old(showCamera) && loading == old(loading) && open == old(open) && form == old(form)
    {
      if initialFile.Some? && initialFile.value !in selectedFiles {
        selectedFiles := selectedFiles + [initialFile.value];
      }
    }

    /** `handleFileChange`: the files picked in the input (none when the
        picker is dismissed), appended and cut to four. */
    method HandleFileChange(newFiles: seq<File>)
      modifies this
      ensures selectedFiles == AppendCapped(old(selectedFiles), newFiles)
      ensures showCamera == old(showCamera) && loading == old(loading) && open == old(open) && form == old(form)
    {
      var combined := selectedFiles + newFiles;
      selectedFiles := combined[..Min(MaxFiles, |combined|)];
    }

    /** `handleCameraCapture`: appends without any bound and closes the camera. */
    method HandleCameraCapture(file: File)
      modifies this
      ensures selectedFiles == old(selectedFiles) + [file] && !showCamera
      ensures loading == old(loading) && open == old(open) && form == old(form)
    {
      selectedFiles := selectedFiles + [file];
      showCamera := false;
    }

    /** `removeFile(index)`. */
    method RemoveFile(index: nat)
      modifies this
      ensures selectedFiles == RemoveAt(old(selectedFiles), index)
      ensures showCamera == old(showCamera) && loading == old(loading) && open == old(open) && form == old(form)
    {
      selectedFiles := RemoveAt(selectedFiles, index);
    }

    /** `handleAddMore`. With four or more files listed it only warns.
        Otherwise it opens a picker; `picked` is what the user chose there
        (none when dismissed), appended and cut to four. */
    method HandleAddMore(picked: seq<File>) returns (toast: Option<Toast>)
      modifies this
      ensures |old(selectedFiles)| >= MaxFiles ==>
                selectedFiles == old(selectedFiles)
                && toast == Some(Toast(true, "Maximum files reached", "You can only upload up to 4 receipt images."))
      ensures |old(selectedFiles)| < MaxFiles ==>
                selectedFiles == AppendCapped(old(selectedFiles), picked) && toast == None
      ensures showCamera == old(showCamera) && loading == old(loading) && open == old(open) && form == old(form)
    {
      if |selectedFiles| >= MaxFiles {
        toast := Some(Toast(true, "Maximum files reached", "You can only upload up to 4 receipt images."));
        return;
      }
      toast := None;
      var combined := selectedFiles + picked;
      selectedFiles := combined[..Min(MaxFiles, |combined|)];
    }

    /** `handleSubmit`: sends the form and the first four files. On success
        the dialog closes, the form is reset and the list is emptied; on
        failure only the error toast appears and everything else is kept. */
    method HandleSubmit(outcome: Outcome, today: Date) returns (sent: Payload, toast: Toast)
      modifies this
      ensures sent == SubmitData(old(form), old(selectedFiles))
      ensures outcome.Succeeded? ==>
                && toast == Toast(false, "Success", "Expense created successfully")
                && !open && form == EmptyForm(today) && selectedFiles == []
      ensures outcome.Failed? ==>
                && toast == Toast(true, "Error", DetailOr(outcome.detail, "Failed to create expense"))
                && open == old(open) && form == old(form) && selectedFiles == old(selectedFiles)
      ensures !loading && showCamera == old(showCamera)
    {
      loading := true;
      var submitData := CreateFields(form);
      sent := AppendReceipts(submitData, selectedFiles);
      if outcome.Succeeded? {
        toast := Toast(false, "Success", "Expense created successfully");
        open := false;
        form := EmptyForm(today);
        selectedFiles := [];
      } else {
        toast := Toast(true, "Error", DetailOr(outcome.detail, "Failed to create expense"));
      }
      loading := false;
    }
  }
}
