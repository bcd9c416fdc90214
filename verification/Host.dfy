/** The machine the client runs on: its clock and its files, in place. */
module Hosts {
  import opened Bytes
  import opened Uins
  import opened Sockets
  import opened Clock
  import opened Spool
  import opened Api

  class Host {
    var clock: nat
    var naps: seq<Nap>
    var files: map<bytes, bytes>
    var seconds: uint32
    var writes: seq<WriteResult>
    var listing: seq<bytes>

    ghost function DiskView(): Disk
      reads this
    {
      Disk(files, seconds, writes, listing)
    }

    constructor (clock: nat, naps: seq<Nap>, disk: Disk)
      ensures this.clock == clock && this.naps == naps && DiskView() == disk
    {
      this.clock, this.naps := clock, naps;
      files, seconds, writes, listing := disk.files, disk.seconds, disk.writes, disk.listing;
    }

    /** A wait or sleep of 50 ms, or as long as it turned out. */
    method Sleep()
      modifies this`clock, this`naps
      ensures clock == old(clock) + Head(old(naps), 50) && naps == Pop(old(naps))
    {
      clock := clock + Head(naps, 50);
      naps := Pop(naps);
    }

    method WriteWholeFileAtomic(path: bytes, contents: bytes) returns (ok: bool)
      modifies this`files, this`writes
      ensures DiskView() == Store(old(DiskView()), path, contents)
    {
      var outcome := Head(writes, Stored);
      writes := Pop(writes);
      if outcome.OpenFailed? {
        return false;
      }
      var tempPath := path + DOT_TMP;
      files := files[tempPath := contents];
      if outcome.WriteFailed? {
        files := files - {tempPath};
        assert files == old(files) - {tempPath};
        return false;
      }
      files := files - {path};
      if outcome.RenameFailed? {
        files := files - {tempPath};
        assert files == old(files) - {tempPath} - {path};
        return false;
      }
      files := (files - {tempPath})[path := contents];
      assert files == (old(files) - {tempPath})[path := contents];
      return true;
    }

    /** rename after remove of whatever stood there. */
    method MoveAside(path: bytes)
      modifies this`files
      ensures files == RenamedBad(old(files), path)
    {
      var badPath := path + DOT_BAD;
      files := files - {badPath};
      if path in files {
        var contents := files[path];
        files := (files - {path})[badPath := contents];
      }
    }

    method Remove(path: bytes)
      modifies this`files
      ensures files == old(files) - {path}
    {
      files := files - {path};
    }

    method ListFilesWithExtension(extension: bytes) returns (names: seq<bytes>)
      ensures names == WithExtension(listing, extension)
    {
      names := [];
      var i := 0;
      while i < |listing|
        invariant 0 <= i <= |listing|
        invariant names + WithExtension(listing[i..], extension) == WithExtension(listing, extension)
      {
        assert listing[i..][0] == listing[i] && listing[i..][1..] == listing[i + 1..];
        if EndsWith(listing[i], extension) {
          names := names + [listing[i]];
        }
        i := i + 1;
      }
      assert names + WithExtension(listing[i..], extension) == names;
    }

    /** The search for a spool name not in use, from the calendar clock's seconds on. */
    method UnusedSerial(directory: bytes, u: Uin) returns (serial: uint32, path: bytes)
      requires HasFree(files, directory, u)
      ensures FreeSerial(files, directory, u, seconds, SERIALS) == Some(serial)
      ensures path == SpoolPath(directory, serial, u) && path !in files
    {
      SerialFound(files, directory, u, seconds);
      serial := seconds;
      ghost var tries := SERIALS;
      path := SpoolPath(directory, serial, u);
      while path in files
        invariant 0 <= tries && path == SpoolPath(directory, serial, u)
        invariant FreeSerial(files, directory, u, serial, tries) == FreeSerial(files, directory, u, seconds, SERIALS)
        invariant FreeSerial(files, directory, u, serial, tries).Some?
        decreases tries
      {
        serial := After(serial, 1);
        tries := tries - 1;
        path := SpoolPath(directory, serial, u);
      }
    }
  }
}
