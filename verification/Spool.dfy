/** The file system as the spools use it: paths and contents, with writes that may fail part way. */
module Spool {
  import opened Bytes
  import opened Uins

  /** How WriteWholeFileAtomic ends: stored, or failed to open, to write, or to rename the temporary file. */
  datatype WriteResult = Stored | OpenFailed | WriteFailed | RenameFailed

  /** Files, the calendar clock in seconds, how coming writes end, and the names readdir will list. */
  datatype Disk = Disk(files: map<bytes, bytes>, seconds: uint32, writes: seq<WriteResult>, listing: seq<bytes>)

  const DOT_TMP: bytes := [DOT, 116, 109, 112]
  const DOT_BAD: bytes := [DOT, 98, 97, 100]

  /** How many serial numbers there are. */
  const SERIALS: nat := 0x1_0000_0000

  function SpoolPath(directory: bytes, serial: uint32, u: Uin): bytes {
    directory + SpoolName(serial, u)
  }

  /** The next serial number; it wraps. */
  function After(serial: uint32, steps: nat): uint32 {
    ToUint32(serial + steps)
  }

  /** The first unused serial number from a starting point on; none if all those tried are in use. */
  function FreeSerial(files: map<bytes, bytes>, directory: bytes, u: Uin, serial: uint32, tries: nat): Option<uint32>
    decreases tries
  {
    if tries == 0 then None
    else if SpoolPath(directory, serial, u) !in files then Some(serial)
    else FreeSerial(files, directory, u, After(serial, 1), tries - 1)
  }

  /** WriteWholeFileAtomic */
  function Store(d: Disk, path: bytes, contents: bytes): Disk {
    var rest := d.(writes := if d.writes == [] then [] else d.writes[1..]);
    var files := d.files - {path + DOT_TMP};
    match if d.writes == [] then Stored else d.writes[0]
    case OpenFailed => rest
    case WriteFailed => rest.(files := files)
    case RenameFailed => rest.(files := files - {path})
    case Stored => rest.(files := files[path := contents])
  }

  /** SpoolPrayFile. On a disk where every serial number is in use the search would not end. */
  function SpoolPray(d: Disk, inbox: bytes, sender: Uin, payload: bytes): Disk {
    if inbox == [] then d
    else
      match FreeSerial(d.files, inbox, sender, d.seconds, SERIALS)
      case None => d
      case Some(serial) => Store(d, SpoolPath(inbox, serial, sender), payload)
  }

  /** The paths of a run of serial numbers. */
  ghost function Paths(directory: bytes, u: Uin, serial: uint32, count: nat): set<bytes>
    decreases count
  {
    if count == 0 then {} else {SpoolPath(directory, serial, u)} + Paths(directory, u, After(serial, 1), count - 1)
  }

  lemma PathInjective(directory: bytes, a: uint32, b: uint32, u: Uin)
    requires SpoolPath(directory, a, u) == SpoolPath(directory, b, u)
    ensures a == b
  {
    assert SpoolName(a, u) == SpoolPath(directory, a, u)[|directory|..] == SpoolPath(directory, b, u)[|directory|..]
           == SpoolName(b, u);
    SpoolNameInjective(a, b, u);
  }

  lemma AfterNone(serial: uint32)
    ensures After(serial, 0) == serial
  {
  }

  lemma AfterAfter(serial: uint32, steps: nat)
    ensures After(After(serial, 1), steps) == After(serial, steps + 1)
  {
    var s := serial as int + 1;
    assert s == s / TWO_32 * TWO_32 + s % TWO_32;
    assert s / TWO_32 == 0 || s / TWO_32 == 1;
  }

  lemma {:induction false} PathsAre(directory: bytes, u: Uin, serial: uint32, count: nat, path: bytes)
    returns (steps: nat)
    requires path in Paths(directory, u, serial, count)
    ensures steps < count && path == SpoolPath(directory, After(serial, steps), u)
    decreases count
  {
    hide SpoolPath, After;
    AfterNone(serial);
    if path == SpoolPath(directory, serial, u) {
      steps := 0;
    } else {
      steps := PathsAre(directory, u, After(serial, 1), count - 1, path);
      AfterAfter(serial, steps);
      steps := steps + 1;
    }
  }

  lemma NeverSame(serial: uint32, steps: nat)
    requires 0 < steps < SERIALS
    ensures After(serial, steps) != serial
  {
  }

  /** Consecutive serial numbers give distinct paths until they wrap. */
  lemma {:induction false} PathsCount(directory: bytes, u: Uin, serial: uint32, count: nat)
    requires count <= SERIALS
    ensures |Paths(directory, u, serial, count)| == count
    decreases count
  {
    hide SpoolPath, After;
    if count > 0 {
      var rest := Paths(directory, u, After(serial, 1), count - 1);
      PathsCount(directory, u, After(serial, 1), count - 1);
      var path := SpoolPath(directory, serial, u);
      if path in rest {
        var steps := PathsAre(directory, u, After(serial, 1), count - 1, path);
        AfterAfter(serial, steps);
        PathInjective(directory, serial, After(serial, steps + 1), u);
        NeverSame(serial, steps + 1);
        assert false;
      }
    }
  }

  lemma {:induction false} AllTaken(files: map<bytes, bytes>, directory: bytes, u: Uin, serial: uint32, tries: nat)
    requires FreeSerial(files, directory, u, serial, tries).None?
    ensures Paths(directory, u, serial, tries) <= files.Keys
    decreases tries
  {
    if tries > 0 {
      AllTaken(files, directory, u, After(serial, 1), tries - 1);
    }
  }

  lemma SubsetSize(a: set<bytes>, b: set<bytes>)
    requires a <= b
    ensures |a| <= |b|
  {
    assert b == a + (b - a);
  }

  /** Some serial number is unused for this user in this directory. */
  ghost predicate HasFree(files: map<bytes, bytes>, directory: bytes, u: Uin) {
    exists serial: uint32 :: SpoolPath(directory, serial, u) !in files
  }

  lemma {:induction false} PathsHave(directory: bytes, u: Uin, serial: uint32, count: nat, steps: nat)
    requires steps < count
    ensures SpoolPath(directory, After(serial, steps), u) in Paths(directory, u, serial, count)
    decreases count
  {
    hide SpoolPath, After;
    AfterNone(serial);
    if steps > 0 {
      PathsHave(directory, u, After(serial, 1), count - 1, steps - 1);
      AfterAfter(serial, steps - 1);
    }
  }

  /** Every serial number comes up within one cycle, from wherever the search begins. */
  lemma EverySerial(serial: uint32, wanted: uint32)
    ensures 0 <= (wanted - serial) % TWO_32 < SERIALS && After(serial, (wanted - serial) % TWO_32) == wanted
  {
    var steps := (wanted - serial) % TWO_32;
    assert steps == wanted - serial || steps == wanted - serial + TWO_32;
  }

  /** The serial search ends exactly on the file systems that do not occupy every serial number. */
  lemma SerialFound(files: map<bytes, bytes>, directory: bytes, u: Uin, serial: uint32)
    ensures FreeSerial(files, directory, u, serial, SERIALS).Some? <==> HasFree(files, directory, u)
  {
    hide SpoolPath, After;
    if FreeSerial(files, directory, u, serial, SERIALS).Some? {
      FreeSerialIsFree(files, directory, u, serial, SERIALS);
    } else {
      AllTaken(files, directory, u, serial, SERIALS);
      forall wanted: uint32 ensures SpoolPath(directory, wanted, u) in files {
        EverySerial(serial, wanted);
        PathsHave(directory, u, serial, SERIALS, (wanted - serial) % TWO_32);
      }
    }
  }

  /** So it ends, in particular, on any disk with fewer files than there are serial numbers. */
  lemma FewFilesLeaveFree(files: map<bytes, bytes>, directory: bytes, u: Uin)
    requires |files| < SERIALS
    ensures HasFree(files, directory, u)
  {
    if !HasFree(files, directory, u) {
      SerialFound(files, directory, u, 0);
      AllTaken(files, directory, u, 0, SERIALS);
      PathsCount(directory, u, 0, SERIALS);
      SubsetSize(Paths(directory, u, 0, SERIALS), files.Keys);
      assert false;
    }
  }

  lemma {:induction false} FreeSerialIsFree(files: map<bytes, bytes>, directory: bytes, u: Uin, serial: uint32,
                                            tries: nat)
    requires FreeSerial(files, directory, u, serial, tries).Some?
    ensures SpoolPath(directory, FreeSerial(files, directory, u, serial, tries).value, u) !in files
    decreases tries
  {
    if SpoolPath(directory, serial, u) in files {
      FreeSerialIsFree(files, directory, u, After(serial, 1), tries - 1);
    }
  }

  lemma DifferentSuffixes(path: bytes, other: bytes, a: bytes)
    requires other == path + a && a != []
    ensures other != path
  {
  }

  /** A spooled message lands, whole, under a name that was not in use, from which its sender can be read;
      no file that was there before is changed, except a stale temporary one of that very name. */
  lemma SpooledFile(d: Disk, inbox: bytes, sender: Uin, payload: bytes) returns (path: bytes)
    requires Normalised(inbox) && PlainUin(sender)
    requires HasFree(d.files, inbox, sender) && (d.writes == [] || d.writes[0] == Stored)
    ensures path !in d.files
    ensures var after := SpoolPray(d, inbox, sender, payload).files;
            && path in after && after[path] == payload
            && after.Keys == d.files.Keys - {path + DOT_TMP} + {path}
            && (forall p | p in d.files && p in after :: after[p] == d.files[p])
    ensures UserFromSpoolName(BaseName(path)) == sender.ToString()
  {
    SerialFound(d.files, inbox, sender, d.seconds);
    var serial := FreeSerial(d.files, inbox, sender, d.seconds, SERIALS).value;
    FreeSerialIsFree(d.files, inbox, sender, d.seconds, SERIALS);
    path := SpoolPath(inbox, serial, sender);
    SpoolPathUser(inbox, serial, sender);
    DifferentSuffixes(path, path + DOT_TMP, DOT_TMP);
  }

  /** A message that cannot be written leaves no file of its own, and every other file as it was, but for a stale
      temporary one of the name it would have had; and so does one without an inbox to go to. */
  lemma FailedSpool(d: Disk, inbox: bytes, sender: Uin, payload: bytes)
    requires inbox == [] || (d.writes != [] && d.writes[0] != Stored)
    ensures var after := SpoolPray(d, inbox, sender, payload).files;
            && after.Keys <= d.files.Keys && (forall p | p in after :: after[p] == d.files[p])
            && (forall p | p in d.files && p !in after :: inbox != [] && exists serial: uint32 ::
                  p == SpoolPath(inbox, serial, sender) + DOT_TMP)
  {
    hide SpoolPath;
    if inbox != [] && FreeSerial(d.files, inbox, sender, d.seconds, SERIALS).Some? {
      FreeSerialIsFree(d.files, inbox, sender, d.seconds, SERIALS);
      var serial := FreeSerial(d.files, inbox, sender, d.seconds, SERIALS).value;
      var after := SpoolPray(d, inbox, sender, payload).files;
      forall p | p in d.files && p !in after
        ensures exists serial: uint32 :: p == SpoolPath(inbox, serial, sender) + DOT_TMP
      {
        assert p == SpoolPath(inbox, serial, sender) + DOT_TMP;
      }
    }
  }

  lemma StoreGrowth(d: Disk, path: bytes, contents: bytes)
    ensures |Store(d, path, contents).files| <= |d.files| + 1
  {
    var after := Store(d, path, contents).files;
    SubsetSize(after.Keys, d.files.Keys + {path});
  }

  lemma SpoolGrowth(d: Disk, inbox: bytes, sender: Uin, payload: bytes)
    ensures |SpoolPray(d, inbox, sender, payload).files| <= |d.files| + 1
  {
    if inbox != [] && FreeSerial(d.files, inbox, sender, d.seconds, SERIALS).Some? {
      StoreGrowth(d, SpoolPath(inbox, FreeSerial(d.files, inbox, sender, d.seconds, SERIALS).value, sender), payload);
    }
  }
}
