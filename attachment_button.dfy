/**
 * The attachment picker (src/components/chat/AttachmentButton.tsx): files above the size
 * limit are rejected with one error toast each, and the callback receives the rest, but
 * only when there is at least one.
 *
 * The toasts and the callback argument are returned; resetting the file input's value is
 * a DOM effect and is left out. The limit in megabytes is a natural number here.
 */
module AttachmentButton {
  import opened Wrappers
  import opened Strings
  import opened Seqs

  /** A browser `File`: name, MIME type and size in bytes. */
  datatype File = File(name: string, mimeType: string, size: nat)

  /** The default `maxSizeMB`. */
  const DefaultMaxSizeMB: nat := 10

  /** `maxSizeMB * 1024 * 1024`. */
  function MaxBytes(maxSizeMB: nat): nat {
    maxSizeMB * 1024 * 1024
  }

  /** The default limit is 10 MB, that is 10485760 bytes. */
  lemma DefaultLimit()
    ensures MaxBytes(DefaultMaxSizeMB) == 10485760
  {
  }

  /** Files of at most `maxBytes` are kept; a file of exactly the limit is kept. */
  function Fits(maxBytes: nat): File -> bool {
    (f: File) => f.size <= maxBytes
  }

  function TooLarge(maxBytes: nat): File -> bool {
    (f: File) => f.size > maxBytes
  }

  /** The toast for one rejected file: it starts with the file's name and ends with the limit in MB. */
  function TooLargeMessage(f: File, maxSizeMB: nat): (r: string)
    ensures |f.name| <= |r| && r[..|f.name|] == f.name
    ensures var tail := NatToString(maxSizeMB) + "MB)"; |tail| <= |r| && r[|r| - |tail|..] == tail
  {
    f.name + " is too large (max " + NatToString(maxSizeMB) + "MB)"
  }

  /** One toast per rejected file, in order. */
  function Toasts(rejected: seq<File>, maxSizeMB: nat): (r: seq<string>)
    ensures |r| == |rejected|
    ensures forall k :: 0 <= k < |r| ==> r[k] == TooLargeMessage(rejected[k], maxSizeMB)
  {
    seq(|rejected|, k requires 0 <= k < |rejected| => TooLargeMessage(rejected[k], maxSizeMB))
  }

  /**
   * `handleFileSelect`: walks the files in order, raising a toast for each file over the
   * limit and keeping the others; the callback gets the kept files iff there are any.
   */
  method HandleFileSelect(files: seq<File>, maxSizeMB: nat)
    returns (valid: seq<File>, toasts: seq<string>, selected: Option<seq<File>>)
    ensures valid == Filter(Fits(MaxBytes(maxSizeMB)), files)
    ensures toasts == Toasts(Filter(TooLarge(MaxBytes(maxSizeMB)), files), maxSizeMB)
    ensures selected.Some? <==> |valid| > 0
    ensures selected.Some? ==> selected.value == valid
  {
    var maxBytes := MaxBytes(maxSizeMB);
    valid, toasts := [], [];
    for i := 0 to |files|
      invariant valid == Filter(Fits(maxBytes), files[..i])
      invariant toasts == Toasts(Filter(TooLarge(maxBytes), files[..i]), maxSizeMB)
    {
      assert files[..i + 1] == files[..i] + [files[i]];
      FilterAppend(Fits(maxBytes), files[..i], [files[i]]);
      FilterAppend(TooLarge(maxBytes), files[..i], [files[i]]);
      if files[i].size > maxBytes {
        toasts := toasts + [TooLargeMessage(files[i], maxSizeMB)];
      } else {
        valid := valid + [files[i]];
      }
    }
    assert files[..|files|] == files;
    selected := if |valid| > 0 then Some(valid) else None;
  }

  /**
   * The kept files are exactly those within the limit, in their original order, and every
   * file is either kept or announced by a toast, never both.
   */
  lemma SelectionSplitsFiles(files: seq<File>, maxSizeMB: nat)
    ensures var valid := Filter(Fits(MaxBytes(maxSizeMB)), files);
      && (forall k :: 0 <= k < |valid| ==> valid[k].size <= MaxBytes(maxSizeMB))
      && (forall k :: 0 <= k < |files| && files[k].size <= MaxBytes(maxSizeMB) ==> files[k] in valid)
      && Subsequence(valid, files)
    ensures |Filter(Fits(MaxBytes(maxSizeMB)), files)|
      + |Toasts(Filter(TooLarge(MaxBytes(maxSizeMB)), files), maxSizeMB)| == |files|
  {
    var m := MaxBytes(maxSizeMB);
    FilterKeepsOrder(Fits(m), files);
    FilterComplement(Fits(m), TooLarge(m), files);
  }
}
