/** What a scan of the outbox sends. */
module Outbox {
  import opened Bytes
  import opened Uins
  import opened Protocol
  import opened Sockets
  import opened Clock
  import opened Spool
  import opened Client
  import opened Connection
  import opened Api
  import opened Sound
  import opened Warp
  import Acts

  // ---- the listing ----

  /** A name ends in an extension if something stands before it. */
  lemma EndsWithIs(name: bytes, extension: bytes)
    ensures EndsWith(name, extension) <==> exists stem: bytes :: stem != [] && name == stem + extension
  {
    if EndsWith(name, extension) {
      var stem := name[..|name| - |extension|];
      assert name == stem + extension;
    }
  }

  /** A single name is kept exactly if something stands before the extension it ends in; */
  lemma OneKept(name: bytes, extension: bytes)
    ensures (exists stem: bytes :: stem != [] && name == stem + extension)
            ==> WithExtension([name], extension) == [name]
    ensures (forall stem: bytes :: stem != [] ==> name != stem + extension) ==> WithExtension([name], extension) == []
  {
    hide EndsWith;
    EndsWithIs(name, extension);
    assert [name][1..] == [];
  }

  /** and a listing keeps what its parts keep, in their order. */
  lemma {:induction false} KeptInOrder(names: seq<bytes>, more: seq<bytes>, extension: bytes)
    ensures WithExtension(names + more, extension) == WithExtension(names, extension) + WithExtension(more, extension)
    decreases |names|
  {
    hide EndsWith;
    if names == [] {
      assert names + more == more;
    } else {
      assert (names + more)[1..] == names[1..] + more;
      KeptInOrder(names[1..], more, extension);
    }
  }

  lemma {:induction false} KeptIsListed(names: seq<bytes>, extension: bytes, name: bytes)
    ensures name in WithExtension(names, extension) <==> name in names && EndsWith(name, extension)
    decreases |names|
  {
    hide EndsWith;
    if names != [] {
      KeptIsListed(names[1..], extension, name);
      assert names == [names[0]] + names[1..];
    }
  }

  // ---- what a scan is to send ----

  /** The packet a file is to go out as, if it is there and its name carries an address. */
  function PacketOf(session: Session, files: map<bytes, bytes>, path: bytes): seq<bytes> {
    var target := Parse(UserFromSpoolName(BaseName(path)));
    if path !in files || target.None? then []
    else [Build(Message(session.server, session.user, target.value, BinaryMessage(MESG_PRAY_FILE, files[path])))]
  }

  function PacketsOf(session: Session, files: map<bytes, bytes>, directory: bytes, names: seq<bytes>): seq<bytes> {
    if names == [] then []
    else PacketOf(session, files, directory + names[0]) + PacketsOf(session, files, directory, names[1..])
  }

  /** A file that was listed is gone: sent, or moved aside for want of an address. */
  predicate Cleared(files: map<bytes, bytes>, after: map<bytes, bytes>, path: bytes) {
    path in files ==>
      && path !in after
      && (UserFromSpoolName(BaseName(path)) == [] ==> path + DOT_BAD in after && after[path + DOT_BAD] == files[path])
  }

  /** One file, if the client is still online after it. */
  lemma OneSent(m: Mgr, path: bytes)
    requires IsOnline(m) && IsWarp(path)
    ensures var (r, ok) := SendOutboxFile(m, path);
            && (ok <==> IsOnline(r))
            && (ok ==>
                  && r.session == m.session && r.outbox == m.outbox && Cleared(m.disk.files, r.disk.files, path)
                  && r.sock.accepted == m.sock.accepted + PacketOf(m.session, m.disk.files, path)
                  && (forall f | f != path && f != path + DOT_BAD ::
                        (f in r.disk.files <==> f in m.disk.files)
                        && (f in m.disk.files ==> r.disk.files[f] == m.disk.files[f])))
  {
    hide UserFromSpoolName, BaseName, Parse, BinaryMessage, Build, WriteSock;
    WarpIsNotBad(path, path);
    assert m.sock.accepted + [] == m.sock.accepted;
    SpoolUserParses(BaseName(path));
    if path in m.disk.files && Parse(UserFromSpoolName(BaseName(path))).Some? {
      OutboxFileSent(m, path);
    }
  }

  lemma SpoolUserParses(name: bytes)
    ensures UserFromSpoolName(name) == [] <==> Parse(UserFromSpoolName(name)).None?
  {
  }

  /** The file is as it was. */
  predicate Untouched(files: map<bytes, bytes>, after: map<bytes, bytes>, f: bytes) {
    (f in after <==> f in files) && (f in files ==> after[f] == files[f])
  }

  /** Files that are as they were go out as the same packets. */
  lemma {:induction false} SamePackets(session: Session, files: map<bytes, bytes>, after: map<bytes, bytes>,
                                       directory: bytes, names: seq<bytes>)
    requires forall i | 0 <= i < |names| :: Untouched(files, after, directory + names[i])
    ensures PacketsOf(session, after, directory, names) == PacketsOf(session, files, directory, names)
    decreases |names|
  {
    hide UserFromSpoolName, BaseName, Parse, BinaryMessage, Build;
    if names != [] {
      assert Untouched(files, after, directory + names[0]);
      forall i | 0 <= i < |names[1..]| ensures Untouched(files, after, directory + names[1..][i]) {
        assert names[1..][i] == names[i + 1];
      }
      SamePackets(session, files, after, directory, names[1..]);
    }
  }

  /** Over a scan after which the client is still online: the packets of the files listed went out whole, in the
      order of the listing and each once; and every file listed is gone, sent or moved aside. */
  lemma {:induction false} FilesSent(m: Mgr, names: seq<bytes>)
    requires IsOnline(m) && AllWarp(m, names) && Distinct(names) && IsOnline(SendFiles(m, names))
    ensures SendFiles(m, names).sock.accepted
         == m.sock.accepted + PacketsOf(m.session, m.disk.files, m.outbox, names)
    ensures forall i | 0 <= i < |names| ::
              Cleared(m.disk.files, SendFiles(m, names).disk.files, m.outbox + names[i])
    ensures SendFiles(m, names).outbox == m.outbox && SendFiles(m, names).session == m.session
    decreases |names|
  {
    hide SendOutboxFile, IsWarp, PacketOf, Cleared;
    if names == [] {
      assert m.sock.accepted + [] == m.sock.accepted;
    } else {
      var path, rest := m.outbox + names[0], names[1..];
      var (s, ok) := SendOutboxFile(m, path);
      OneSent(m, path);
      assert forall i | 0 <= i < |rest| :: rest[i] == names[i + 1];
      OthersUntouched(m, s, names[0], rest);
      OtherPaths(m.outbox, names[0], rest);
      SamePackets(m.session, m.disk.files, s.disk.files, m.outbox, rest);
      FilesSent(s, rest);
      var r := SendFiles(s, rest);
      forall i | 0 <= i < |names| ensures Cleared(m.disk.files, r.disk.files, m.outbox + names[i]) {
        if i == 0 {
          FirstStaysCleared(m, s, rest, path);
        } else {
          assert rest[i - 1] == names[i];
          SameCleared(m.disk.files, s.disk.files, r.disk.files, m.outbox + names[i]);
        }
      }
    }
  }

  lemma OthersUntouched(m: Mgr, s: Mgr, name: bytes, rest: seq<bytes>)
    requires AllWarp(m, rest) && forall i | 0 <= i < |rest| :: rest[i] != name
    requires forall f | f != m.outbox + name && f != m.outbox + name + DOT_BAD ::
               (f in s.disk.files <==> f in m.disk.files) && (f in m.disk.files ==> s.disk.files[f] == m.disk.files[f])
    ensures forall i | 0 <= i < |rest| :: Untouched(m.disk.files, s.disk.files, m.outbox + rest[i])
  {
    hide IsWarp;
    OtherPaths(m.outbox, name, rest);
    forall i | 0 <= i < |rest| ensures Untouched(m.disk.files, s.disk.files, m.outbox + rest[i]) {
      WarpIsNotBad(m.outbox + rest[i], m.outbox + name);
    }
  }

  lemma SameCleared(files: map<bytes, bytes>, before: map<bytes, bytes>, after: map<bytes, bytes>, path: bytes)
    requires Untouched(files, before, path) && Cleared(before, after, path)
    ensures Cleared(files, after, path)
  {
    hide UserFromSpoolName, BaseName;
  }

  /** What was cleared first is neither put back nor, if moved aside, lost again. */
  lemma FirstStaysCleared(m: Mgr, s: Mgr, rest: seq<bytes>, path: bytes)
    requires IsWarp(path) && AllWarp(s, rest) && Cleared(m.disk.files, s.disk.files, path)
    requires forall i | 0 <= i < |rest| :: s.outbox + rest[i] != path
    ensures Cleared(m.disk.files, SendFiles(s, rest).disk.files, path)
  {
    hide UserFromSpoolName, BaseName, IsWarp, SendFiles;
    if path in m.disk.files {
      StaysAway(s, rest, path);
      if UserFromSpoolName(BaseName(path)) == [] {
        BadFileStaysOn(s, rest, path);
      }
    }
  }

  lemma {:induction false} StaysAway(m: Mgr, names: seq<bytes>, path: bytes)
    requires AllWarp(m, names) && IsWarp(path) && path !in m.disk.files
    ensures path !in SendFiles(m, names).disk.files
    decreases |names|
  {
    hide SendOutboxFile, IsWarp;
    if names != [] && IsOnline(m) {
      var (s, ok) := SendOutboxFile(m, m.outbox + names[0]);
      OneStaysAway(m, m.outbox + names[0], path);
      SendOutboxFileFrame(m, m.outbox + names[0]);
      if ok {
        assert forall i | 0 <= i < |names[1..]| :: names[1..][i] == names[i + 1];
        StaysAway(s, names[1..], path);
      }
    }
  }

  lemma OneStaysAway(m: Mgr, sent: bytes, path: bytes)
    requires IsWarp(path) && path !in m.disk.files
    ensures path !in SendOutboxFile(m, sent).0.disk.files
  {
    hide UserFromSpoolName, BaseName, Parse, BinaryMessage, Build, WriteSock, IsWarp;
    WarpIsNotBad(path, sent);
    Acts.PostDisk(m, UserFromSpoolName(BaseName(sent)),
                  BinaryMessage(MESG_PRAY_FILE, if sent in m.disk.files then m.disk.files[sent] else []));
  }

  // ---- scans and ticks ----

  /** A scan is made when something may have been put in the outbox, or the time for one has come. */
  predicate Due(m: Mgr) {
    m.outbox != [] && (m.outboxDirty || TimeAfter(NowMs(m.clock), m.nextScan))
  }

  /** From p to r the warp files listed in the outbox went out, in order, and are gone. */
  ghost predicate OutboxSent(p: Mgr, r: Mgr) {
    var names := WithExtension(p.disk.listing, DOT_WARP);
    && r.sock.accepted == p.sock.accepted + PacketsOf(p.session, p.disk.files, p.outbox, names)
    && (forall name | name in p.disk.listing && EndsWith(name, DOT_WARP) ::
          Cleared(p.disk.files, r.disk.files, p.outbox + name))
    && !r.outboxDirty && r.nextScan == Deadline(NowMs(p.clock), 5000)
  }

  /** A scan that is due, with the client online before and after it, sends everything that can be sent. */
  lemma ScanSends(m: Mgr)
    requires IsOnline(m) && Due(m) && Distinct(m.disk.listing) && IsOnline(ScanOutbox(m))
    ensures OutboxSent(m, ScanOutbox(m))
  {
    hide SendFiles, WithExtension, TimeAfter, NowMs, Deadline, Cleared, IsWarp, PacketsOf, EndsWith;
    var s := m.(outboxDirty := false, nextScan := Deadline(NowMs(m.clock), OUTBOX_RESCAN));
    var names := WithExtension(s.disk.listing, DOT_WARP);
    ListedDistinct(s.disk.listing);
    forall i | 0 <= i < |names| ensures IsWarp(s.outbox + names[i]) {
      ListedNames(s.disk.listing, i);
      WarpPath(s.outbox, names[i]);
    }
    FilesSent(s, names);
    SendsOnly(s, names);
    var r := ScanOutbox(m);
    forall name | name in m.disk.listing && EndsWith(name, DOT_WARP)
      ensures Cleared(m.disk.files, r.disk.files, m.outbox + name)
    {
      KeptIsListed(m.disk.listing, DOT_WARP, name);
      var i :| 0 <= i < |names| && names[i] == name;
    }
  }

  lemma WarpPath(directory: bytes, name: bytes)
    requires EndsWith(name, DOT_WARP)
    ensures IsWarp(directory + name)
  {
    var path := directory + name;
    assert path[|path| - 5..] == name[|name| - 5..];
  }

  lemma {:induction false} SendsOnly(m: Mgr, names: seq<bytes>)
    ensures SendFiles(m, names).outboxDirty == m.outboxDirty && SendFiles(m, names).nextScan == m.nextScan
    decreases |names|
  {
    hide SendOutboxFile;
    if names != [] && IsOnline(m) {
      OneSendsOnly(m, m.outbox + names[0]);
      SendsOnly(SendOutboxFile(m, m.outbox + names[0]).0, names[1..]);
    }
  }

  lemma OneSendsOnly(m: Mgr, path: bytes)
    ensures SendOutboxFile(m, path).0.outboxDirty == m.outboxDirty
    ensures SendOutboxFile(m, path).0.nextScan == m.nextScan
  {
    hide UserFromSpoolName, BaseName, Parse, BinaryMessage, Build, WriteSock, RenamedBad;
  }

  /** Over a tick: if a scan is due after the pump and the client is online throughout, every file the outbox lists
      with an address in its name has gone out as a whole packet; if none is due, the tick is its pump. */
  lemma TickSends(m: Mgr)
    requires Distinct(m.disk.listing)
    ensures var p, r := Pump(m), SendOrdinaryMessages(m);
            && (IsOnline(p) && Due(p) && IsOnline(r) ==> p.disk.listing == m.disk.listing && OutboxSent(p, r))
            && (!IsOnline(p) || !Due(p) ==> r == p)
  {
    hide Pump, SendFiles, OutboxSent, TimeAfter, NowMs, WithExtension;
    PumpKeepsWarps(m);
    var p := Pump(m);
    if IsOnline(p) && Due(p) && IsOnline(SendOrdinaryMessages(m)) {
      ScanSends(p);
    }
  }

  /** After a scan the next is due 5 s later on the wrapping clock, or once the game was handed a path. */
  lemma DueAgain(m: Mgr, scanned: nat)
    requires m.outbox != [] && m.nextScan == Deadline(NowMs(scanned), 5000)
    requires scanned <= m.clock < scanned + 5000 + TWO_31
    ensures Due(m) <==> m.outboxDirty || scanned + 5000 <= m.clock
  {
    hide TimeAfter, NowMs, Deadline;
    TimeAfterReal(m.clock, scanned, 5000);
  }

  /** What a file goes out as, in the scan's list of packets. */
  lemma {:induction false} ListedIsSent(session: Session, files: map<bytes, bytes>, directory: bytes,
                                        names: seq<bytes>, name: bytes)
    requires name in names && directory + name in files
    requires Parse(UserFromSpoolName(BaseName(directory + name))).Some?
    ensures Build(Message(session.server, session.user, Parse(UserFromSpoolName(BaseName(directory + name))).value,
                          BinaryMessage(MESG_PRAY_FILE, files[directory + name])))
            in PacketsOf(session, files, directory, names)
    decreases |names|
  {
    hide UserFromSpoolName, BaseName, Parse, BinaryMessage, Build;
    if names[0] != name {
      ListedIsSent(session, files, directory, names[1..], name);
    }
  }
}
