/**
 * The submission form (src/pages/Student/topics/Submission/CreateSubmission.jsx):
 * the `submissionData` record edited field by field, staged files with
 * de-duplication by name, the FormData payload and the reset after success.
 */
module CreateSubmission {
  import opened Wrappers
  import opened Entities
  import Seqs

  /** Some staged file already has this name. */
  predicate NameStaged(staged: seq<LocalFile>, name: string)
  {
    exists i :: 0 <= i < |staged| && staged[i].name == name
  }

  /** The files of a selection kept by `handleFileChange`: those whose name is not staged yet, in selection order. */
  function NewFiles(staged: seq<LocalFile>, selected: seq<LocalFile>): (r: seq<LocalFile>)
    ensures forall i :: 0 <= i < |r| ==> r[i] in selected && !NameStaged(staged, r[i].name)
    ensures forall i :: 0 <= i < |selected| && !NameStaged(staged, selected[i].name) ==> selected[i] in r
    ensures Seqs.IsSubsequence(r, selected)
  {
    var p := (f: LocalFile) => !NameStaged(staged, f.name);
    Seqs.FilterIsSubsequence(p, selected);
    Seqs.Filter(p, selected)
  }

  /** Choosing only files whose names are already staged adds nothing. */
  lemma AllStagedAddsNothing(staged: seq<LocalFile>, selected: seq<LocalFile>)
    requires forall i :: 0 <= i < |selected| ==> NameStaged(staged, selected[i].name)
    ensures NewFiles(staged, selected) == []
  {
    Seqs.FilterDropsAll((f: LocalFile) => !NameStaged(staged, f.name), selected);
  }

  /** Only staged names are compared: two new files of one selection that share a name are both kept. */
  lemma SameNameInOneSelectionKept(staged: seq<LocalFile>, a: LocalFile, b: LocalFile)
    requires a.name == b.name && !NameStaged(staged, a.name)
    ensures NewFiles(staged, [a, b]) == [a, b]
  {
    Seqs.FilterKeepsAll((f: LocalFile) => !NameStaged(staged, f.name), [a, b]);
  }

  /** A record field as it holds a text or checkbox value. */
  datatype FieldValue = Str(s: string) | Flag(b: bool)

  /** What FormData stores for an appended non-file value: its string form. */
  function FormText(v: FieldValue): string
  {
    match v
    case Str(s) => s
    case Flag(b) => if b then "true" else "false"
  }

  /** The inputs wired to `handleChange`, by their `name` attribute. */
  datatype Field = Title | Content | AgreedToTnC

  /** The keys of `submissionData` in insertion order, which is the order `for…in` visits them. */
  const RecordKeys: seq<string> := ["userID", "facultyID", "topicID", "title", "content", "agreedToTnC", "files"]

  /** One `'files'` entry per staged file, in staging order. */
  function FileEntries(files: seq<LocalFile>): (r: seq<FormEntry>)
    ensures |r| == |files|
    ensures forall j :: 0 <= j < |files| ==> r[j] == FormEntry("files", Blob(files[j]))
  {
    if files == [] then [] else FileEntries(files[..|files| - 1]) + [FormEntry("files", Blob(files[|files| - 1]))]
  }

  const SubmitSuccess := Snackbar(true, "Submission created successfully!", Success)
  const SubmitFailure := Snackbar(true, "Failed to create submission.", Error)

  class Form {
    const userId: string
    const facultyId: string
    const topicId: string
    var title: FieldValue
    var content: FieldValue
    var agreedToTnC: FieldValue
    var files: seq<LocalFile>
    var snackbar: Snackbar
    /** The payloads passed to `createContribution`, in order. */
    var submitted: seq<seq<FormEntry>>

    /** The record right after mounting or `resetForm`: ids kept, text empty, box unticked, no files. */
    predicate IsBlank()
      reads this
    {
      title == Str("") && content == Str("") && agreedToTnC == Flag(false) && files == []
    }

    constructor (userId: string, facultyId: string, topicId: string)
      ensures this.userId == userId && this.facultyId == facultyId && this.topicId == topicId
      ensures IsBlank() && submitted == [] && snackbar == Snackbar(false, "", Success)
    {
      this.userId, this.facultyId, this.topicId := userId, facultyId, topicId;
      title, content, agreedToTnC, files := Str(""), Str(""), Flag(false), [];
      snackbar := Snackbar(false, "", Success);
      submitted := [];
    }

    /** The value held under one of the record's non-file keys. */
    function ValueAt(key: string): FieldValue
      reads this
      requires key in RecordKeys && key != "files"
    {
      if key == "userID" then Str(userId)
      else if key == "facultyID" then Str(facultyId)
      else if key == "topicID" then Str(topicId)
      else if key == "title" then title
      else if key == "content" then content
      else agreedToTnC
    }

    /** The entries the key loop appends for `keys`: every key but `files`, with its value as text. */
    function ScalarEntries(keys: seq<string>): seq<FormEntry>
      reads this
      requires forall i :: 0 <= i < |keys| ==> keys[i] in RecordKeys
    {
      if keys == [] then []
      else
        var key := keys[|keys| - 1];
        ScalarEntries(keys[..|keys| - 1])
        + (if key != "files" then [FormEntry(key, Text(FormText(ValueAt(key))))] else [])
    }

    /** The key loop appends the six non-file fields in key order and skips `files`. */
    lemma ScalarEntriesOfRecord()
      ensures ScalarEntries(RecordKeys) == [
        FormEntry("userID", Text(userId)), FormEntry("facultyID", Text(facultyId)),
        FormEntry("topicID", Text(topicId)), FormEntry("title", Text(FormText(title))),
        FormEntry("content", Text(FormText(content))), FormEntry("agreedToTnC", Text(FormText(agreedToTnC)))]
    {
      var k := RecordKeys;
      var e0 := FormEntry("userID", Text(userId));
      var e1 := FormEntry("facultyID", Text(facultyId));
      var e2 := FormEntry("topicID", Text(topicId));
      var e3 := FormEntry("title", Text(FormText(title)));
      var e4 := FormEntry("content", Text(FormText(content)));
      var e5 := FormEntry("agreedToTnC", Text(FormText(agreedToTnC)));
      assert k[..1][..0] == [] && k[..1][0] == "userID";
      assert ScalarEntries(k[..1]) == [e0];
      assert k[..2][..1] == k[..1] && k[..2][1] == "facultyID";
      assert ScalarEntries(k[..2]) == [e0, e1];
      assert k[..3][..2] == k[..2] && k[..3][2] == "topicID";
      assert ScalarEntries(k[..3]) == [e0, e1, e2];
      assert k[..4][..3] == k[..3] && k[..4][3] == "title";
      assert ScalarEntries(k[..4]) == [e0, e1, e2, e3];
      assert k[..5][..4] == k[..4] && k[..5][4] == "content";
      assert ScalarEntries(k[..5]) == [e0, e1, e2, e3, e4];
      assert k[..6][..5] == k[..5] && k[..6][5] == "agreedToTnC";
      assert ScalarEntries(k[..6]) == [e0, e1, e2, e3, e4, e5];
      assert k[..7][..6] == k[..6] && k[..7] == k;
    }

    /**
     * The payload: each non-file field once, in key order, then one `'files'`
     * entry per staged file in staging order.
     */
    function Payload(): (p: seq<FormEntry>)
      reads this
      ensures |p| == 6 + |files|
      ensures p[..6] == [
        FormEntry("userID", Text(userId)), FormEntry("facultyID", Text(facultyId)),
        FormEntry("topicID", Text(topicId)), FormEntry("title", Text(FormText(title))),
        FormEntry("content", Text(FormText(content))), FormEntry("agreedToTnC", Text(FormText(agreedToTnC)))]
      ensures forall j :: 0 <= j < |files| ==> p[6 + j] == FormEntry("files", Blob(files[j]))
    {
      ScalarEntriesOfRecord();
      ScalarEntries(RecordKeys) + FileEntries(files)
    }

    /** `handleChange`: the named field takes `checked` for a checkbox and `value` otherwise; nothing else changes. */
    method HandleChange(name: Field, isCheckbox: bool, checked: bool, value: string)
      modifies this`title, this`content, this`agreedToTnC
      ensures var v := if isCheckbox then Flag(checked) else Str(value);
              && title == (if name == Title then v else old(title))
              && content == (if name == Content then v else old(content))
              && agreedToTnC == (if name == AgreedToTnC then v else old(agreedToTnC))
      ensures files == old(files) && snackbar == old(snackbar) && submitted == old(submitted)
    {
      var v := if isCheckbox then Flag(checked) else Str(value);
      match name {
        case Title => title := v;
        case Content => content := v;
        case AgreedToTnC => agreedToTnC := v;
      }
    }

    /** `handleFileChange`: the staged files stay as a prefix and the new names follow in selection order. */
    method HandleFileChange(selected: seq<LocalFile>)
      modifies this`files
      ensures files == old(files) + NewFiles(old(files), selected)
      ensures title == old(title) && content == old(content) && agreedToTnC == old(agreedToTnC)
      ensures snackbar == old(snackbar) && submitted == old(submitted)
    {
      files := files + NewFiles(files, selected);
    }

    /** The FormData the submit handler builds: the key loop skipping `files`, then one append per file. */
    method BuildPayload() returns (data: seq<FormEntry>)
      ensures data == Payload()
    {
      data := [];
      for i := 0 to |RecordKeys|
        invariant data == ScalarEntries(RecordKeys[..i])
      {
        var key := RecordKeys[i];
        assert RecordKeys[..i + 1][..i] == RecordKeys[..i];
        if key != "files" {
          data := data + [FormEntry(key, Text(FormText(ValueAt(key))))];
        }
      }
      assert RecordKeys[..|RecordKeys|] == RecordKeys;
      var scalars := data;
      for j := 0 to |files|
        invariant data == scalars + FileEntries(files[..j])
      {
        assert files[..j + 1][..j] == files[..j];
        data := data + [FormEntry("files", Blob(files[j]))];
      }
      assert files[..|files|] == files;
    }

    /** `resetForm`: back to the blank record; the ids are constants and stay. */
    method ResetForm()
      modifies this`title, this`content, this`agreedToTnC, this`files
      ensures IsBlank()
      ensures snackbar == old(snackbar) && submitted == old(submitted)
    {
      title, content, agreedToTnC, files := Str(""), Str(""), Flag(false), [];
    }

    /**
     * `handleSubmit`: the browser submits the form only with a title, a
     * content and the terms box ticked, which are required inputs. Send the
     * payload; on success show the message and reset, on failure keep the
     * form.
     */
    method HandleSubmit(createOk: bool)
      requires title != Str("") && content != Str("") && agreedToTnC == Flag(true)
      modifies this`title, this`content, this`agreedToTnC, this`files, this`snackbar, this`submitted
      ensures submitted == old(submitted) + [old(Payload())]
      ensures submitted[|submitted| - 1][5] == FormEntry("agreedToTnC", Text("true"))
      ensures createOk ==> IsBlank() && snackbar == SubmitSuccess
      ensures !createOk ==> snackbar == SubmitFailure
      ensures !createOk ==> title == old(title) && content == old(content)
                            && agreedToTnC == old(agreedToTnC) && files == old(files)
    {
      var data := BuildPayload();
      submitted := submitted + [data];
      if createOk {
        snackbar := SubmitSuccess;
        ResetForm();
      } else {
        snackbar := SubmitFailure;
      }
    }
  }
}
