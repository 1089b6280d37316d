/** The merge step of the `/upload-json` handlers: the arrays of the uploaded
    files are concatenated in file order, and a file whose top-level value is
    not an array stops the merge with an error. */
module Merge {
  import opened Json

  const NoFilesUploaded := HttpError(400, "No files were uploaded.")
  const NotAnArray := HttpError(400, "Each JSON file must contain an array.")

  predicate AllArrays<T>(files: seq<Document<T>>) {
    forall i | 0 <= i < |files| :: files[i].Array?
  }

  /** The elements of all the files, file after file. */
  function Concat<T>(files: seq<Document<T>>): seq<T>
    requires AllArrays(files)
  {
    if |files| == 0 then []
    else Concat(files[..|files| - 1]) + files[|files| - 1].elements
  }

  /** The loop of both handlers: push (or extend with) each file's array, or stop at the first non-array. */
  method MergeArrays<T>(files: seq<Document<T>>) returns (r: Result<seq<T>, HttpError>)
    ensures r.Ok? <==> AllArrays(files)
    ensures r.Ok? ==> r.value == Concat(files)
    ensures r.Err? ==> r.error == NotAnArray
  {
    var merged: seq<T> := [];
    for i := 0 to |files|
      invariant AllArrays(files[..i])
      invariant merged == Concat(files[..i])
    {
      match files[i]
      case Array(elements) =>
        assert files[..i + 1][..i] == files[..i];
        merged := merged + elements;
      case NotArray =>
        return Err(NotAnArray);
    }
    assert files[..|files|] == files;
    return Ok(merged);
  }

  /** Merging two batches of files one after the other is merging them all at once. */
  lemma {:induction false} ConcatAppend<T>(a: seq<Document<T>>, b: seq<Document<T>>)
    requires AllArrays(a) && AllArrays(b)
    ensures AllArrays(a + b)
    ensures Concat(a + b) == Concat(a) + Concat(b)
  {
    if |b| > 0 {
      var init := b[..|b| - 1];
      assert (a + b)[..|a + b| - 1] == a + init;
      ConcatAppend(a, init);
    } else {
      assert a + b == a;
    }
  }

  /** Each file's array appears whole in the merged array, after the arrays of the files before it
      and before the arrays of the files after it. */
  lemma ConcatInFileOrder<T>(files: seq<Document<T>>, k: nat)
    requires AllArrays(files) && k < |files|
    ensures Concat(files) == Concat(files[..k]) + files[k].elements + Concat(files[k + 1..])
  {
    assert files == files[..k] + [files[k]] + files[k + 1..];
    ConcatAppend(files[..k] + [files[k]], files[k + 1..]);
    assert (files[..k] + [files[k]])[..k] == files[..k];
  }
}
