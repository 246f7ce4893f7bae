/**
 * The file list: the user's uploaded documents as the server listed them, the
 * fetch that refreshes it and the confirmed delete that removes one entry and
 * tells the chat panel.
 */
module FileList {
  import opened Net
  import Chat

  /** One entry of the `/files/me` response. */
  datatype FileEntry = FileEntry(id: int, filename: string)

  /** The list after a delete of `fileId`: every entry whose id differs, in order. */
  function WithoutId(files: seq<FileEntry>, fileId: int): (r: seq<FileEntry>)
    ensures |r| <= |files|
  {
    if files == [] then []
    else (if files[0].id != fileId then [files[0]] else []) + WithoutId(files[1..], fileId)
  }

  /** After a delete, the list holds exactly the former entries whose id differs. */
  lemma {:induction false} WithoutIdMembers(files: seq<FileEntry>, fileId: int)
    ensures forall f :: f in WithoutId(files, fileId) <==> f in files && f.id != fileId
  {
    if files != [] {
      WithoutIdMembers(files[1..], fileId);
      assert files == [files[0]] + files[1..];
    }
  }

  /** Each entry whose id differs is kept as many times as it occurred. */
  lemma {:induction false} WithoutIdCounts(files: seq<FileEntry>, fileId: int)
    ensures forall f: FileEntry :: f.id != fileId ==> multiset(WithoutId(files, fileId))[f] == multiset(files)[f]
  {
    if files != [] {
      WithoutIdCounts(files[1..], fileId);
      assert files == [files[0]] + files[1..];
    }
  }

  /** A delete of an id no entry has leaves the list as it was. */
  lemma {:induction false} WithoutIdAbsent(files: seq<FileEntry>, fileId: int)
    requires forall f :: f in files ==> f.id != fileId
    ensures WithoutId(files, fileId) == files
  {
    if files != [] {
      assert files[0] in files;
      WithoutIdAbsent(files[1..], fileId);
      assert files == [files[0]] + files[1..];
    }
  }

  /** `sub` is `s` with some entries left out and the others in their order. */
  ghost predicate IsSubsequence(sub: seq<FileEntry>, s: seq<FileEntry>) {
    if sub == [] then true
    else if s == [] then false
    else if sub[0] == s[0] then IsSubsequence(sub[1..], s[1..])
    else IsSubsequence(sub, s[1..])
  }

  /** The entries kept by a delete stay in their original relative order. */
  lemma {:induction false} WithoutIdKeepsOrder(files: seq<FileEntry>, fileId: int)
    ensures IsSubsequence(WithoutId(files, fileId), files)
  {
    if files != [] {
      var rest := WithoutId(files[1..], fileId);
      WithoutIdKeepsOrder(files[1..], fileId);
      if files[0].id != fileId {
        assert WithoutId(files, fileId) == [files[0]] + rest;
        assert ([files[0]] + rest)[1..] == rest;
      } else {
        assert WithoutId(files, fileId) == rest;
        if rest != [] {
          WithoutIdMembers(files[1..], fileId);
          assert rest[0] in rest;
        }
      }
    }
  }

  /** One step of the filter: the head is kept exactly when its id differs. */
  lemma WithoutIdCons(x: FileEntry, rest: seq<FileEntry>, fileId: int)
    ensures WithoutId([x] + rest, fileId) == (if x.id != fileId then [x] else []) + WithoutId(rest, fileId)
  {
  }

  /** Deleting from a list made of two parts deletes from each part. */
  lemma {:induction false} WithoutIdAppend(a: seq<FileEntry>, b: seq<FileEntry>, fileId: int)
    ensures WithoutId(a + b, fileId) == WithoutId(a, fileId) + WithoutId(b, fileId)
  {
    if a == [] {
      assert a + b == b;
    } else {
      var x, rest := a[0], a[1..];
      assert a == [x] + rest;
      assert a + b == [x] + (rest + b);
      WithoutIdCons(x, rest + b, fileId);
      WithoutIdCons(x, rest, fileId);
      WithoutIdAppend(rest, b, fileId);
      var head := if x.id != fileId then [x] else [];
      assert head + (WithoutId(rest, fileId) + WithoutId(b, fileId))
          == (head + WithoutId(rest, fileId)) + WithoutId(b, fileId);
    }
  }

  class FileListView {
    var files: seq<FileEntry>
    var isLoading: bool

    constructor ()
      ensures files == [] && isLoading
    {
      files, isLoading := [], true;
    }

    /** The fetch effect: a successful response replaces the list, a failed
        one keeps it; the loading flag is down afterwards either way. */
    method FetchFiles(outcome: Response<seq<FileEntry>>)
      modifies this`files, this`isLoading
      ensures !isLoading
      ensures outcome.Ok? ==> files == outcome.payload
      ensures !outcome.Ok? ==> files == old(files)
    {
      isLoading := true;
      if outcome.Ok? {
        files := outcome.payload;
      }
      isLoading := false;
    }

    /** Deletes `fileId` once the user has `confirmed`. Returns whether the
        request was sent and whether the parent's `onFileDeleted` was called. */
    method Delete(fileId: int, confirmed: bool, outcome: Response<()>, parent: Chat.ChatPanel)
      returns (requested: bool, notified: bool)
      modifies this`files, parent`fileUploaded, parent`messages
      ensures requested == confirmed
      ensures notified <==> confirmed && outcome.Ok?
      ensures notified ==>
        && files == WithoutId(old(files), fileId)
        && parent.messages == [] && parent.fileUploaded == old(parent.fileUploaded) + 1
      ensures !notified ==>
        && files == old(files)
        && parent.messages == old(parent.messages) && parent.fileUploaded == old(parent.fileUploaded)
    {
      requested, notified := false, false;
      if !confirmed {
        return;
      }
      requested := true;
      if outcome.Ok? {
        files := WithoutId(files, fileId);
        parent.FileDeleted();
        notified := true;
      }
    }
  }
}
