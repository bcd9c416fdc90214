/** Presence, the whose-wanted register and the queue of changes the game collects. */
module Watching {
  import opened Bytes
  import opened Uins

  datatype Presence = Presence(online: bool, nickName: bytes)

  /** The register, with the consumer's side of it as history: whom the game believes online (`seen`),
      whose AddToWWR last answered "call again" (`adding`), and whose change was swallowed (`missed`). */
  datatype Watch = Watch(presence: map<bytes, Presence>, members: set<bytes>, changed: seq<bytes>,
                         pendingAdds: map<bytes, uint32>, usersForWWR: seq<bytes>,
                         seen: set<bytes>, adding: set<bytes>, missed: set<bytes>)

  predicate KnownOnline(w: Watch, user: bytes) {
    user in w.presence && w.presence[user].online
  }

  /** The game's belief about a user is right, or the user is queued for it to ask about. */
  predicate Synced(w: Watch, user: bytes) {
    (user in w.seen <==> KnownOnline(w, user)) || user in w.changed
  }

  function Miss(w: Watch, user: bytes): Watch {
    w.(missed := if Synced(w, user) then w.missed - {user} else w.missed + {user})
  }

  /** UpdatePresence */
  function Update(w: Watch, uin: Uin, online: bool, nickName: bytes): Watch {
    var key := uin.ToString();
    var before := if key in w.presence then w.presence[key] else Presence(false, []);
    var now := Presence(online, if nickName != [] then nickName else before.nickName);
    var u := w.(presence := w.presence[key := now]);
    if key in w.pendingAdds then
      var done := u.(pendingAdds := w.pendingAdds - {key});
      if key in w.adding then done else Miss(done, key)
    else if before.online != online && key in w.members && key !in w.changed then
      u.(changed := w.changed + [key], missed := w.missed - {key})
    else u
  }

  /** MarkEveryoneOffline: the game tells every watching agent itself. */
  function AllOffline(w: Watch): Watch {
    w.(presence := map k | k in w.presence :: w.presence[k].(online := false),
       changed := [], pendingAdds := map[], seen := {}, missed := {})
  }

  /** AddToWWR begins by registering the user; it is unfinished until it answers without blocking. */
  function BeginAdd(w: Watch, user: bytes): Watch {
    w.(members := w.members + {user}, adding := w.adding + {user})
  }

  /** AddToWWR answers without blocking: the game now reads the user's state. */
  function FinishAdd(w: Watch, user: bytes): Watch {
    w.(seen := if KnownOnline(w, user) then w.seen + {user} else w.seen - {user},
       adding := w.adding - {user}, missed := w.missed - {user})
  }

  /** RemoveFromWWR: the game stops watching; changes already queued stay queued. */
  function Remove(w: Watch, user: bytes): Watch {
    w.(members := w.members - {user}, pendingAdds := w.pendingAdds - {user}, presence := w.presence - {user},
       seen := w.seen - {user}, adding := w.adding - {user}, missed := w.missed - {user})
  }

  /** Registration at login: a user not watched before starts out as offline in the game's eyes. */
  function Register(w: Watch, user: bytes): Watch {
    if user in w.members then w
    else
      var r := w.(members := w.members + {user}, seen := w.seen - {user});
      if user in w.adding then r else Miss(r, user)
  }

  /** NextChangedUserWWR: the user and state reported, */
  function NextChanged(w: Watch): (bytes, bool)
    requires w.changed != []
  {
    (w.changed[0], KnownOnline(w, w.changed[0]))
  }

  /** and the register afterwards; the game now believes what it was told. */
  function AfterNext(w: Watch): Watch
    requires w.changed != []
  {
    var user := w.changed[0];
    w.(changed := w.changed[1..],
       seen := if KnownOnline(w, user) then w.seen + {user} else w.seen - {user}, missed := w.missed - {user})
  }

  function Drain(w: Watch): Watch
    decreases |w.changed|
  {
    if w.changed == [] then w else Drain(AfterNext(w))
  }

  // ---- no lost changes ----

  predicate NoDuplicates(s: seq<bytes>) {
    forall i, j | 0 <= i < j < |s| :: s[i] != s[j]
  }

  /** A watched user whose AddToWWR is not under way. */
  predicate Settled(w: Watch, user: bytes) {
    user in w.members && user !in w.adding && user !in w.pendingAdds
  }

  /** The queue holds nobody twice, and a settled user is out of step with the game exactly if swallowed. */
  ghost predicate WatchOk(w: Watch) {
    && NoDuplicates(w.changed)
    && w.pendingAdds.Keys <= w.members
    && forall u | Settled(w, u) :: Synced(w, u) <==> u !in w.missed
  }

  lemma UpdateKeeps(w: Watch, uin: Uin, online: bool, nickName: bytes)
    requires WatchOk(w)
    ensures WatchOk(Update(w, uin, online, nickName))
    ensures KnownOnline(Update(w, uin, online, nickName), uin.ToString()) == online
    ensures forall u | u != uin.ToString() :: KnownOnline(Update(w, uin, online, nickName), u) == KnownOnline(w, u)
  {
    var key, r := uin.ToString(), Update(w, uin, online, nickName);
    forall u | Settled(r, u) ensures Synced(r, u) <==> u !in r.missed {
      if u != key {
        assert Settled(w, u);
        assert u in r.changed <==> u in w.changed;
      } else if Settled(w, u) {
        assert r.changed != w.changed ==> r.changed[|w.changed|] == key;
      }
    }
  }

  lemma AllOfflineKeeps(w: Watch)
    ensures WatchOk(AllOffline(w))
    ensures forall u :: !KnownOnline(AllOffline(w), u)
  {
  }

  lemma BeginAddKeeps(w: Watch, user: bytes)
    requires WatchOk(w)
    ensures WatchOk(BeginAdd(w, user))
  {
    forall u | Settled(BeginAdd(w, user), u) ensures Settled(w, u) && Synced(BeginAdd(w, user), u) == Synced(w, u) {
    }
  }

  lemma FinishAddKeeps(w: Watch, user: bytes)
    requires WatchOk(w)
    ensures WatchOk(FinishAdd(w, user)) && Synced(FinishAdd(w, user), user)
  {
    var r := FinishAdd(w, user);
    forall u | Settled(r, u) ensures Synced(r, u) <==> u !in r.missed {
      if u != user {
        assert Settled(w, u);
      }
    }
  }

  lemma RemoveKeeps(w: Watch, user: bytes)
    requires WatchOk(w)
    ensures WatchOk(Remove(w, user))
  {
    var r := Remove(w, user);
    forall u | Settled(r, u) ensures Synced(r, u) <==> u !in r.missed {
      assert Settled(w, u);
    }
  }

  lemma RegisterKeeps(w: Watch, user: bytes)
    requires WatchOk(w)
    ensures WatchOk(Register(w, user))
  {
    var r := Register(w, user);
    forall u | Settled(r, u) ensures Synced(r, u) <==> u !in r.missed {
      if u != user {
        assert Settled(w, u);
      }
    }
  }

  lemma AfterNextKeeps(w: Watch)
    requires WatchOk(w) && w.changed != []
    ensures WatchOk(AfterNext(w)) && w.changed[0] !in AfterNext(w).changed
    ensures AfterNext(w).missed == w.missed - {w.changed[0]} && AfterNext(w).presence == w.presence
  {
    var r, user := AfterNext(w), w.changed[0];
    assert w.changed == [user] + r.changed;
    forall u | Settled(r, u) ensures Synced(r, u) <==> u !in r.missed {
      assert Settled(w, u);
    }
  }

  /** Draining the queue brings the game up to date with every settled user whose change was not swallowed. */
  lemma {:induction false} DrainedIsCurrent(w: Watch)
    requires WatchOk(w)
    ensures WatchOk(Drain(w)) && Drain(w).changed == [] && Drain(w).presence == w.presence
    ensures Drain(w).missed <= w.missed
    ensures forall u | Settled(w, u) && u !in w.missed :: u in Drain(w).seen <==> KnownOnline(w, u)
    decreases |w.changed|
  {
    if w.changed != [] {
      AfterNextKeeps(w);
      DrainedIsCurrent(AfterNext(w));
      forall u | Settled(w, u) && u !in w.missed ensures u in Drain(w).seen <==> KnownOnline(w, u) {
        assert Settled(AfterNext(w), u);
      }
    } else {
      forall u | Settled(w, u) && u !in w.missed ensures u in Drain(w).seen <==> KnownOnline(w, u) {
        assert Synced(w, u);
      }
    }
  }

  // ---- exactly when a change is swallowed ----

  /** UpdatePresence swallows a change exactly when the user's pending add was left behind by an AddToWWR
      that already answered, nothing is queued for the user, and the game believes the opposite. */
  lemma UpdateMisses(w: Watch, uin: Uin, online: bool, nickName: bytes)
    ensures var u := uin.ToString();
            u !in w.missed ==>
              (u in Update(w, uin, online, nickName).missed <==>
               u in w.pendingAdds && u !in w.adding && u !in w.changed && (u in w.seen) != online)
    ensures forall u | u != uin.ToString() :: u in Update(w, uin, online, nickName).missed <==> u in w.missed
  {
  }

  /** Login swallows a user's state exactly when it starts to watch, without an AddToWWR under way,
      a user already known to be online for whom nothing is queued. */
  lemma RegisterMisses(w: Watch, user: bytes)
    requires user !in w.missed
    ensures user in Register(w, user).missed <==>
            user !in w.members && user !in w.adding && KnownOnline(w, user) && user !in w.changed
  {
  }

  /** A user's key in the register is the canonical spelling of the identity packets report about. */
  lemma OtherSpellingsStayUnknown(w: Watch, uin: Uin, online: bool, nickName: bytes, user: bytes)
    requires Parse(user).Some? && !Canonical(user)
    ensures KnownOnline(Update(w, uin, online, nickName), user) == KnownOnline(w, user)
  {
    if user == uin.ToString() {
      ParseToString(uin);
    }
  }
}
