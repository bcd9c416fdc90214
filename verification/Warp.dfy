/** The Warp end to end, and the safety of the outbox. */
module Warp {
  import opened Bytes
  import opened Uins
  import opened Protocol
  import opened Sockets
  import opened Clock
  import opened Tickets
  import opened Watching
  import opened Spool
  import opened Client
  import opened Connection
  import opened Api
  import opened LockStep
  import opened Sound
  import Ledger
  import Rooms

  // ---- the sender ----

  /** The path handed out for a user is fresh and names that user. */
  lemma OutboxPath(m: Mgr, user: bytes) returns (target: Uin)
    requires Parse(user).Some? && PlainUin(Parse(user).value) && Normalised(m.outbox)
    requires HasFree(m.disk.files, m.outbox, Parse(user).value)
    ensures target == Parse(user).value
    ensures var (r, path) := UniqueOutboxFilename(m, user);
            && path != [] && path !in m.disk.files && r == m.(outboxDirty := true)
            && UserFromSpoolName(BaseName(path)) == target.ToString()
            && Parse(target.ToString()) == Some(target)
  {
    hide FreeSerial;
    target := Parse(user).value;
    SerialFound(m.disk.files, m.outbox, target, m.disk.seconds);
    var serial := FreeSerial(m.disk.files, m.outbox, target, m.disk.seconds, SERIALS).value;
    FreeSerialIsFree(m.disk.files, m.outbox, target, m.disk.seconds, SERIALS);
    SpoolPathUser(m.outbox, serial, target);
    ParseToString(target);
  }

  /** The packet an outbox file becomes. */
  function WarpPacket(m: Mgr, target: Uin, contents: bytes): Packet {
    Message(m.session.server, m.session.user, target, BinaryMessage(MESG_PRAY_FILE, contents))
  }

  /** A file at a path whose name carries an address, in whatever spelling, goes out as one packet to that user;
      it is removed exactly if the whole packet was accepted for writing, and otherwise the disk is as before. */
  lemma OutboxFileSent(m: Mgr, path: bytes)
    requires path in m.disk.files && Parse(UserFromSpoolName(BaseName(path))).Some?
    ensures var (r, ok) := SendOutboxFile(m, path);
            var p := WarpPacket(m, Parse(UserFromSpoolName(BaseName(path))).value, m.disk.files[path]);
            && (ok <==> IsOnline(m) && Send(m, p).sock.state.Connected?)
            && (ok ==>
                  r.sent == m.sent + [p] && r.disk.files == m.disk.files - {path}
                  && r.sock.accepted == m.sock.accepted + [Build(p)])
            && (!ok ==> r.disk == m.disk && r.sock.accepted == m.sock.accepted)
  {
    hide UserFromSpoolName, BaseName, Parse, BinaryMessage, Build, WriteSock;
    var target := UserFromSpoolName(BaseName(path));
    ParsedIsNotEmpty(target);
    var p := WarpPacket(m, Parse(target).value, m.disk.files[path]);
    BuiltIsSome(p);
    WriteAccepts(m.sock, Build(p));
    Ledger.DeadDrops(m, p);
  }

  // ---- the receiver ----

  /** A relayed warp packet standing at the front of the receiver's buffer is dispatched in one turn of the
      loop: its contents land in the inbox under a new name from which the sender's id can be read. */
  lemma WarpReceived(r: Mgr, server: Uin, sender: Uin, target: Uin, contents: bytes, rest: bytes)
    returns (n: Mgr, path: bytes)
    requires |contents| <= MAX_FURTHER_DATA - 36 && PlainUin(sender) && sender.hid < 0x1_0000
    requires r.sock.input == RelayedWarp(server, sender, target, contents) + rest
    requires Normalised(r.inbox) && HasFree(r.disk.files, r.inbox, sender) && NextWriteStores(r.disk)
    ensures Step(r) == Continue(n) && n.sock.input == rest
    ensures path !in r.disk.files && Holds(n.disk, path, contents) && OthersKept(r.disk, n.disk, path)
    ensures UserFromSpoolName(BaseName(path)) == sender.ToString()
  {
    hide Step, SpoolPray, RelayedWarp, UserFromSpoolName, BaseName, Uin.ToString;
    path := SpooledFile(r.disk, r.inbox, sender, contents);
    n := StepStores(r, server, sender, target, contents, rest);
  }

  /** The turn of the loop itself. */
  lemma StepStores(r: Mgr, server: Uin, sender: Uin, target: Uin, contents: bytes, rest: bytes) returns (n: Mgr)
    requires |contents| <= MAX_FURTHER_DATA - 36 && PlainUin(sender) && sender.hid < 0x1_0000
    requires r.sock.input == RelayedWarp(server, sender, target, contents) + rest
    ensures Step(r) == Continue(n) && n.sock.input == rest && n.disk == SpoolPray(r.disk, r.inbox, sender, contents)
  {
    hide Frame, ReadHeader, ParseMessage, SpoolPray, Encode, RelayedWarp, LowByte, HandlePacket, WarpHeader;
    var packet, h := RelayedWarp(server, sender, target, contents), WarpHeader(server, sender, contents);
    RelayedIsPacket(server, sender, target, contents);
    var p := Unsolicited(h, packet[HEADER_SIZE..]);
    FrameWhole(p, rest, r.tickets.table);
    EncodedHeader(p, rest);
    assert r.sock.input[HEADER_SIZE..|packet|] == packet[HEADER_SIZE..];
    WarpKind(server, sender, contents);
    MessageHandled(r, h, packet[HEADER_SIZE..], Mesg(sender, MESG_PRAY_FILE, contents));
    n := Client.Consumed(HandlePacket(r, h, packet[HEADER_SIZE..]), false, |packet|);
    assert r.sock.input[|packet|..] == rest;
  }

  lemma MessageHandled(r: Mgr, h: Header, body: bytes, mesg: Mesg)
    requires LowByte(h.kind) == MESSAGE && ParseMessage(body) == Some(mesg) && mesg.kind == MESG_PRAY_FILE
    ensures HandlePacket(r, h, body) == r.(disk := SpoolPray(r.disk, r.inbox, mesg.sender, mesg.payload))
    ensures !Drops(r, h)
  {
    hide ParseMessage, SpoolPray, LowByte;
  }

  /** What the relay makes of a warp packet. */
  function RelayedWarp(server: Uin, sender: Uin, target: Uin, contents: bytes): bytes {
    var s := Build(Message(server, sender, target, BinaryMessage(MESG_PRAY_FILE, contents)));
    if |s| >= 40 then Relay(s) else []
  }

  function WarpHeader(server: Uin, sender: Uin, contents: bytes): Header {
    HeaderOf(Message(server, sender, NO_UIN, BinaryMessage(MESG_PRAY_FILE, contents)))
  }

  lemma WarpKind(server: Uin, sender: Uin, contents: bytes)
    ensures WarpHeader(server, sender, contents).kind == MESSAGE && LowByte(MESSAGE) == MESSAGE
    ensures WarpHeader(server, sender, contents).ticket == 0
  {
  }

  /** The relayed packet is a well-formed unsolicited packet whose body parses to sender and contents. */
  lemma RelayedIsPacket(server: Uin, sender: Uin, target: Uin, contents: bytes)
    requires |contents| <= MAX_FURTHER_DATA - 36 && PlainUin(sender) && sender.hid < 0x1_0000
    ensures var packet := RelayedWarp(server, sender, target, contents);
            && |packet| >= HEADER_SIZE
            && var p := Unsolicited(WarpHeader(server, sender, contents), packet[HEADER_SIZE..]);
               && WellFormed(p) && Encode(p) == packet && p.h.ticket == 0
               && ParseMessage(packet[HEADER_SIZE..]) == Some(Mesg(sender, MESG_PRAY_FILE, contents))
  {
    hide Relay, ParseMessage, ReadHeader, WriteHeader, GetInt;
    var payload := BinaryMessage(MESG_PRAY_FILE, contents);
    var m := Message(server, sender, target, payload);
    RelayedMessage(server, sender, target, MESG_PRAY_FILE, contents);
    RelayedBytes(server, sender, target, contents);
    var packet, h := Relay(Build(m)), HeaderOf(m);
    assert |payload| == 12 + |contents|;
    assert packet[HEADER_SIZE..] == packet[32..];
    assert LowHalf(sender.hid) == sender.hid;
  }

  lemma RelayedBytes(server: Uin, sender: Uin, target: Uin, contents: bytes)
    requires |contents| + 36 < TWO_31
    ensures var m := Message(server, sender, target, BinaryMessage(MESG_PRAY_FILE, contents));
            && |Build(m)| >= 40
            && var r := Relay(Build(m)); |r| >= HEADER_SIZE && r == WriteHeader(HeaderOf(m)) + r[HEADER_SIZE..]
  {
    hide ReadHeader, Ints;
    var m := Message(server, sender, target, BinaryMessage(MESG_PRAY_FILE, contents));
    assert Build(m)[..32] == WriteHeader(HeaderOf(m));
    assert Relay(Build(m))[..32] == Build(m)[..32];
  }

  // ---- end to end ----

  /** A creature's file put at the path the sender was given goes out as one packet to the user it was
      meant for; and any client at the other end of the relay that has it at the front of its buffer stores
      exactly the same contents under a new name, from which it reads the sender's id. */
  lemma WarpDelivered(sender: Mgr, user: bytes, target: Uin, contents: bytes, receiver: Mgr, rest: bytes)
    returns (n: Mgr, stored: bytes)
    requires Parse(user) == Some(target) && PlainUin(target) && Normalised(sender.outbox)
    requires HasFree(sender.disk.files, sender.outbox, target)
    requires PlainUin(sender.session.user) && sender.session.user.hid < 0x1_0000
    requires |contents| <= MAX_FURTHER_DATA - 36
    requires SendPlaced(sender, user, contents).1
    requires receiver.sock.input == RelayedWarp(sender.session.server, sender.session.user, target, contents) + rest
    requires Normalised(receiver.inbox) && HasFree(receiver.disk.files, receiver.inbox, sender.session.user)
    requires NextWriteStores(receiver.disk)
    ensures SendPlaced(sender, user, contents).0.sent == sender.sent + [WarpPacket(sender, target, contents)]
    ensures SendPlaced(sender, user, contents).0.disk.files == sender.disk.files
    ensures Step(receiver) == Continue(n) && n.sock.input == rest
    ensures stored !in receiver.disk.files && Holds(n.disk, stored, contents)
            && OthersKept(receiver.disk, n.disk, stored)
    ensures UserFromSpoolName(BaseName(stored)) == sender.session.user.ToString()
  {
    hide SendOutboxFile, UniqueOutboxFilename, Step, Parse, UserFromSpoolName, BaseName, WarpPacket, RelayedWarp;
    var uin := OutboxPath(sender, user);
    var path, placed := UniqueOutboxFilename(sender, user).1, Placed(sender, user, contents);
    OutboxFileSent(placed, path);
    assert placed.disk.files - {path} == sender.disk.files;
    SamePacket(sender, placed, target, contents);
    n, stored := WarpReceived(receiver, sender.session.server, sender.session.user, target, contents, rest);
  }

  /** The file stands at the path with exactly these contents. */
  predicate Holds(d: Disk, path: bytes, contents: bytes) {
    path in d.files && d.files[path] == contents
  }

  /** Every other file is as before, but for a stale temporary one of that very name. */
  predicate OthersKept(d: Disk, after: Disk, stored: bytes) {
    && after.files.Keys == d.files.Keys - {stored + DOT_TMP} + {stored}
    && forall p | p in d.files && p in after.files :: after.files[p] == d.files[p]
  }

  predicate NextWriteStores(d: Disk) {
    d.writes == [] || d.writes[0] == Stored
  }

  /** Sending the file the game placed at the path it was given. */
  function SendPlaced(m: Mgr, user: bytes, contents: bytes): (Mgr, bool) {
    SendOutboxFile(Placed(m, user, contents), UniqueOutboxFilename(m, user).1)
  }

  /** The game writes its file at the path it was given. */
  function Placed(m: Mgr, user: bytes, contents: bytes): Mgr {
    var (r, path) := UniqueOutboxFilename(m, user);
    SetFiles(r, r.disk.files[path := contents])
  }

  lemma SamePacket(m: Mgr, r: Mgr, target: Uin, contents: bytes)
    requires r.session == m.session
    ensures WarpPacket(r, target, contents) == WarpPacket(m, target, contents)
  {
  }

  // ---- outbox safety ----

  /** A file of the outbox after a scan: still there, out of the way because its name carries no address,
      or accepted in full by Write as a packet to the user it names. */
  ghost predicate Kept(m: Mgr, r: Mgr, path: bytes)
    requires path in m.disk.files
  {
    || (path in r.disk.files && r.disk.files[path] == m.disk.files[path])
    || (UserFromSpoolName(BaseName(path)) == [] && path + DOT_BAD in r.disk.files
        && r.disk.files[path + DOT_BAD] == m.disk.files[path])
    || SentOut(m, r, path)
  }

  ghost predicate SentOut(m: Mgr, r: Mgr, path: bytes)
    requires path in m.disk.files
  {
    var target := Parse(UserFromSpoolName(BaseName(path)));
    && target.Some? && m.sock.accepted <= r.sock.accepted
    && Build(WarpPacket(m, target.value, m.disk.files[path])) in r.sock.accepted[|m.sock.accepted|..]
  }

  predicate IsWarp(path: bytes) {
    EndsWith(path, DOT_WARP)
  }

  lemma WarpIsNotBad(path: bytes, other: bytes)
    requires IsWarp(path)
    ensures path != other + DOT_BAD
  {
    var bad := other + DOT_BAD;
    assert bad[|bad| - 1] == DOT_BAD[3];
    assert path[|path| - 5..][4] == path[|path| - 1];
  }

  lemma SendOutboxFileFrame(m: Mgr, path: bytes)
    ensures m.sock.accepted <= SendOutboxFile(m, path).0.sock.accepted
    ensures SendOutboxFile(m, path).1
            ==> SendOutboxFile(m, path).0.session == m.session && SendOutboxFile(m, path).0.outbox == m.outbox
  {
    hide UserFromSpoolName, BaseName, Parse, BinaryMessage, Build, WriteSock, RenamedBad;
    var target := UserFromSpoolName(BaseName(path));
    if target != [] && path in m.disk.files && Parse(target).Some? {
      OutboxFileSent(m, path);
    }
  }

  /** Sending one file leaves every other warp file alone, and never loses the one it sends. */
  lemma SendOutboxFileSafe(m: Mgr, path: bytes, f: bytes)
    requires IsWarp(path) && IsWarp(f) && f in m.disk.files
    ensures Kept(m, SendOutboxFile(m, path).0, f)
    ensures f in SendOutboxFile(m, path).0.disk.files ==> SendOutboxFile(m, path).0.disk.files[f] == m.disk.files[f]
    ensures f != path ==> f in SendOutboxFile(m, path).0.disk.files
  {
    hide UserFromSpoolName, BaseName, Parse, BinaryMessage, Build, WriteSock;
    WarpIsNotBad(f, path);
    WarpIsNotBad(path, path);
    var target := UserFromSpoolName(BaseName(path));
    if target != [] && path in m.disk.files && Parse(target).Some? {
      var p := WarpPacket(m, Parse(target).value, m.disk.files[path]);
      OutboxFileSent(m, path);
      assert (m.sock.accepted + [Build(p)])[|m.sock.accepted|..] == [Build(p)];
    }
  }

  /** What was safe after the first steps stays safe through the next. */
  lemma KeptOn(m: Mgr, s: Mgr, r: Mgr, f: bytes)
    requires f in m.disk.files && Kept(m, s, f) && m.sock.accepted <= s.sock.accepted <= r.sock.accepted
             && s.session == m.session
    requires f in s.disk.files ==> s.disk.files[f] == m.disk.files[f] && Kept(s, r, f)
    requires f + DOT_BAD in s.disk.files && f !in s.disk.files ==>
               f + DOT_BAD in r.disk.files && r.disk.files[f + DOT_BAD] == s.disk.files[f + DOT_BAD]
    ensures Kept(m, r, f)
  {
    hide UserFromSpoolName, BaseName, Parse, BinaryMessage, Build;
    if SentOut(m, s, f) {
      var p := Build(WarpPacket(m, Parse(UserFromSpoolName(BaseName(f))).value, m.disk.files[f]));
      var i :| 0 <= i < |s.sock.accepted| - |m.sock.accepted| && s.sock.accepted[|m.sock.accepted|..][i] == p;
      assert r.sock.accepted[|m.sock.accepted|..][i] == s.sock.accepted[|m.sock.accepted| + i] == p;
    } else if f in s.disk.files && SentOut(s, r, f) && s.disk.files[f] == m.disk.files[f] {
      var p := Build(WarpPacket(m, Parse(UserFromSpoolName(BaseName(f))).value, m.disk.files[f]));
      var i :| 0 <= i < |r.sock.accepted| - |s.sock.accepted| && r.sock.accepted[|s.sock.accepted|..][i] == p;
      assert r.sock.accepted[|m.sock.accepted|..][|s.sock.accepted| - |m.sock.accepted| + i]
             == r.sock.accepted[|s.sock.accepted| + i] == p;
    }
  }

  predicate Distinct(names: seq<bytes>) {
    forall i, j | 0 <= i < j < |names| :: names[i] != names[j]
  }

  predicate AllWarp(m: Mgr, names: seq<bytes>) {
    forall i | 0 <= i < |names| :: IsWarp(m.outbox + names[i])
  }

  /** Sending a file leaves what was moved out of the way for another alone. */
  lemma BadFileStays(m: Mgr, path: bytes, f: bytes)
    requires IsWarp(path) && path != f && f + DOT_BAD in m.disk.files
    ensures var r := SendOutboxFile(m, path).0;
            f + DOT_BAD in r.disk.files && r.disk.files[f + DOT_BAD] == m.disk.files[f + DOT_BAD]
  {
    hide UserFromSpoolName, BaseName, Parse, BinaryMessage, Build, WriteSock;
    WarpIsNotBad(path, f);
    assert (path + DOT_BAD)[..|path + DOT_BAD| - 4] == path && (f + DOT_BAD)[..|f + DOT_BAD| - 4] == f;
  }

  lemma {:induction false} BadFileStaysOn(m: Mgr, names: seq<bytes>, f: bytes)
    requires AllWarp(m, names) && f + DOT_BAD in m.disk.files
    requires forall i | 0 <= i < |names| :: m.outbox + names[i] != f
    ensures f + DOT_BAD in SendFiles(m, names).disk.files
    ensures SendFiles(m, names).disk.files[f + DOT_BAD] == m.disk.files[f + DOT_BAD]
    decreases |names|
  {
    hide SendOutboxFile, IsWarp;
    if names != [] && IsOnline(m) {
      var path := m.outbox + names[0];
      BadFileStays(m, path, f);
      SendOutboxFileFrame(m, path);
      var (s, ok) := SendOutboxFile(m, path);
      if ok {
        assert forall i | 0 <= i < |names[1..]| :: names[1..][i] == names[i + 1];
        BadFileStaysOn(s, names[1..], f);
      }
    }
  }

  lemma {:induction false} AcceptedGrows(m: Mgr, names: seq<bytes>)
    ensures m.sock.accepted <= SendFiles(m, names).sock.accepted
    decreases |names|
  {
    hide SendOutboxFile;
    if names != [] && IsOnline(m) {
      SendOutboxFileFrame(m, m.outbox + names[0]);
      AcceptedGrows(SendOutboxFile(m, m.outbox + names[0]).0, names[1..]);
    }
  }

  /** Over a whole scan no warp file is lost: it stays in place, is moved out of the way because its name
      carries no valid address, or has been written out as a complete packet to the user it names. */
  lemma {:induction false} ScanIsSafe(m: Mgr, names: seq<bytes>, f: bytes)
    requires AllWarp(m, names) && IsWarp(f) && f in m.disk.files && Distinct(names)
    ensures Kept(m, SendFiles(m, names), f)
    decreases |names|
  {
    hide SendOutboxFile, IsWarp, UserFromSpoolName, BaseName, SentOut, Parse;
    if names != [] && IsOnline(m) {
      var path, rest := m.outbox + names[0], names[1..];
      SendOutboxFileSafe(m, path, f);
      SendOutboxFileFrame(m, path);
      var (s, ok) := SendOutboxFile(m, path);
      if ok {
        var r := SendFiles(s, rest);
        assert forall i | 0 <= i < |rest| :: rest[i] == names[i + 1];
        AcceptedGrows(s, rest);
        if f in s.disk.files {
          ScanIsSafe(s, rest, f);
        } else if f + DOT_BAD in s.disk.files {
          OtherPaths(m.outbox, names[0], rest);
          BadFileStaysOn(s, rest, f);
        }
        KeptOn(m, s, r, f);
      }
    }
  }

  lemma OtherPaths(directory: bytes, name: bytes, rest: seq<bytes>)
    requires forall i | 0 <= i < |rest| :: rest[i] != name
    ensures forall i | 0 <= i < |rest| :: directory + rest[i] != directory + name
  {
    forall i | 0 <= i < |rest| ensures directory + rest[i] != directory + name {
      assert (directory + rest[i])[|directory|..] == rest[i] && (directory + name)[|directory|..] == name;
    }
  }

  // ---- whole scans and ticks ----

  lemma {:induction false} ListedNames(listing: seq<bytes>, i: nat)
    requires i < |WithExtension(listing, DOT_WARP)|
    ensures WithExtension(listing, DOT_WARP)[i] in listing && EndsWith(WithExtension(listing, DOT_WARP)[i], DOT_WARP)
    decreases |listing|
  {
    if EndsWith(listing[0], DOT_WARP) {
      if i > 0 {
        ListedNames(listing[1..], i - 1);
      }
    } else {
      ListedNames(listing[1..], i);
    }
  }

  lemma {:induction false} ListedDistinct(listing: seq<bytes>)
    requires Distinct(listing)
    ensures Distinct(WithExtension(listing, DOT_WARP))
    decreases |listing|
  {
    if listing != [] {
      var rest := WithExtension(listing[1..], DOT_WARP);
      assert forall i | 0 <= i < |listing[1..]| :: listing[1..][i] == listing[i + 1];
      ListedDistinct(listing[1..]);
      forall i | 0 <= i < |rest| ensures rest[i] != listing[0] {
        ListedNames(listing[1..], i);
      }
    }
  }

  /** A scan of a directory that lists no name twice is safe. */
  lemma ScanOutboxIsSafe(m: Mgr, f: bytes)
    requires Distinct(m.disk.listing) && IsWarp(f) && f in m.disk.files
    ensures Kept(m, ScanOutbox(m), f)
  {
    hide SendFiles, WithExtension, TimeAfter, NowMs, Deadline, UserFromSpoolName, BaseName, Parse, Build;
    var s := m.(outboxDirty := false, nextScan := Deadline(NowMs(m.clock), OUTBOX_RESCAN));
    var names := WithExtension(s.disk.listing, DOT_WARP);
    ListedDistinct(s.disk.listing);
    forall i | 0 <= i < |names| ensures IsWarp(s.outbox + names[i]) {
      ListedNames(s.disk.listing, i);
      var path := s.outbox + names[i];
      assert path[|path| - 5..] == names[i][|names[i]| - 5..];
    }
    ScanIsSafe(s, names, f);
  }

  /** No warp file goes or changes, and the listing is the same. */
  predicate WarpsKept(d: Disk, e: Disk) {
    e.listing == d.listing && forall f | IsWarp(f) && f in d.files :: f in e.files && e.files[f] == d.files[f]
  }

  lemma SpoolKeepsWarps(d: Disk, inbox: bytes, sender: Uin, payload: bytes)
    ensures WarpsKept(d, SpoolPray(d, inbox, sender, payload))
  {
    hide FreeSerial, IsWarp;
    if inbox != [] && FreeSerial(d.files, inbox, sender, d.seconds, SERIALS).Some? {
      FreeSerialIsFree(d.files, inbox, sender, d.seconds, SERIALS);
      var path := SpoolPath(inbox, FreeSerial(d.files, inbox, sender, d.seconds, SERIALS).value, sender);
      forall f | IsWarp(f) && f in d.files ensures f != path && f != path + DOT_TMP {
        WarpIsNotTemporary(f, path);
      }
    }
  }

  lemma WarpIsNotTemporary(path: bytes, other: bytes)
    requires IsWarp(path)
    ensures path != other + DOT_TMP
  {
    var tmp := other + DOT_TMP;
    assert tmp[|tmp| - 2] == DOT_TMP[2];
    assert path[|path| - 5..][3] == path[|path| - 2];
  }

  lemma StepKeepsWarps(m: Mgr)
    ensures WarpsKept(m.disk, AfterStep(m).disk)
  {
    hide Frame, Answered, ReadHeader, LowByte, HandleHandshake, HandlePacket, Drops, IsWarp;
    match Frame(m.sock.input, m.tickets.table)
    case Whole(size, reply) =>
      Rooms.HandshakeDisk(m, ReadHeader(m.sock.input), m.sock.input[..size]);
      PacketKeepsWarps(m, ReadHeader(m.sock.input), m.sock.input[HEADER_SIZE..size]);
    case _ =>
  }

  lemma PacketKeepsWarps(m: Mgr, h: Header, body: bytes)
    ensures WarpsKept(m.disk, HandlePacket(m, h, body).disk)
  {
    hide LowByte, ParseMessage, ParseUser, WriteSock, Build, SpoolPray, Update, IsWarp;
    if ParseMessage(body).Some? {
      SpoolKeepsWarps(m.disk, m.inbox, ParseMessage(body).value.sender, ParseMessage(body).value.payload);
    }
  }

  lemma {:induction false} ProcessKeepsWarps(m: Mgr)
    ensures WarpsKept(m.disk, Process(m).disk)
    decreases |m.sock.input|
  {
    hide Step, IsWarp;
    StepKeepsWarps(m);
    if Step(m).Continue? {
      ProcessKeepsWarps(Step(m).m);
    }
  }

  lemma PumpKeepsWarps(m: Mgr)
    ensures WarpsKept(m.disk, Pump(m).disk)
  {
    hide Process, PumpSock, PollSock, WriteSock, Build, NextTicket, TimeAfter, IsWarp;
    var l := LoginStep(m);
    ProcessKeepsWarps(l.(sock := PumpSock(l.sock)));
    ProcessKeepsWarps(m.(sock := PumpSock(m.sock)));
  }

  /** Over a whole tick: pumping, whatever it stores, leaves every warp file alone, and the scan after it
      keeps it, moves it out of the way, or has it accepted for writing. */
  lemma TickIsSafe(m: Mgr, f: bytes)
    requires Distinct(m.disk.listing) && IsWarp(f) && f in m.disk.files
    ensures f in Pump(m).disk.files && Pump(m).disk.files[f] == m.disk.files[f]
    ensures Kept(Pump(m), SendOrdinaryMessages(m), f)
  {
    hide Pump, ScanOutbox, SentOut, UserFromSpoolName, BaseName;
    PumpKeepsWarps(m);
    ScanOutboxIsSafe(Pump(m), f);
  }
}
