/** The volume-identifier pattern `vol-.....$` and the snapshot it derives
    from a directory listing. watcher.go and lister.go compile the same
    pattern and filter entries the same way. */
module VolumeNames {
  import opened Outcomes
  import opened FsEvents

  /** `s` matches `vol-.....` in full: the literal prefix, then exactly five
      characters, none of them a newline (what `.` excludes). */
  predicate IsVolumeId(s: string) {
    |s| == 9 && s[..4] == "vol-" && forall k :: 4 <= k < 9 ==> s[k] != '\n'
  }

  /** `volRe.FindString(name)`: the leftmost match of `vol-.....$`. Since `$`
      anchors at the end of the text, a match can only be a suffix of
      `name`, and since every match is nine characters long there is at most
      one candidate. */
  function FindVolume(name: string): (m: Option<string>)
    ensures m.Some? <==> exists i :: 0 <= i <= |name| && IsVolumeId(name[i..])
    ensures m.Some? ==>
      IsVolumeId(m.value) && |m.value| <= |name| && name[|name| - |m.value|..] == m.value
  {
    if |name| >= 9 && IsVolumeId(name[|name| - 9..]) then Some(name[|name| - 9..])
    else
      assert forall i :: 0 <= i <= |name| && IsVolumeId(name[i..]) ==> i == |name| - 9;
      None
  }

  /** The identifiers one entry contributes: none for a directory or a name
      without a match, otherwise the match. */
  function EntryIds(e: DirEntry): seq<string> {
    if e.isDir then []
    else match FindVolume(e.name)
      case Some(m) => [m]
      case None => []
  }

  /** The snapshot of a listing: the identifier of every non-directory
      entry whose name ends in a match, in listing order. */
  function Identifiers(entries: seq<DirEntry>): (ids: seq<string>)
    ensures |ids| <= |entries|
    ensures forall k :: 0 <= k < |ids| ==> IsVolumeId(ids[k])
  {
    if entries == [] then [] else EntryIds(entries[0]) + Identifiers(entries[1..])
  }

  /** Enumeration distributes over concatenation of listings: the order of
      the listing is kept and each entry is judged on its own. */
  lemma {:induction false} IdentifiersAppend(a: seq<DirEntry>, b: seq<DirEntry>)
    ensures Identifiers(a + b) == Identifiers(a) + Identifiers(b)
  {
    if a == [] {
      assert a + b == b;
    } else {
      assert (a + b)[1..] == a[1..] + b;
      IdentifiersAppend(a[1..], b);
    }
  }

  /** An identifier is in the snapshot exactly when some non-directory entry
      of the listing has it as its match. */
  lemma {:induction false} IdentifiersMembership(entries: seq<DirEntry>, v: string)
    ensures v in Identifiers(entries) <==>
      exists k :: 0 <= k < |entries| && !entries[k].isDir && FindVolume(entries[k].name) == Some(v)
  {
    if entries != [] {
      IdentifiersMembership(entries[1..], v);
      if v in Identifiers(entries[1..]) {
        var k :| 0 <= k < |entries| - 1 && !entries[1..][k].isDir && FindVolume(entries[1..][k].name) == Some(v);
        assert entries[k + 1] == entries[1..][k];
      }
      if exists k :: 0 <= k < |entries| && !entries[k].isDir && FindVolume(entries[k].name) == Some(v) {
        var k :| 0 <= k < |entries| && !entries[k].isDir && FindVolume(entries[k].name) == Some(v);
        if k > 0 {
          assert entries[1..][k - 1] == entries[k];
        }
      }
    }
  }
}
