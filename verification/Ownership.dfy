/** Who may serve a shard.  For every shard there is one configuration number, its seat:
    the owners under all earlier configurations have moved past them, and no later
    configuration has been reached by the group that owns the shard under it. */
module Ownership {
  import opened ShardGroup
  import opened Deployment

  /** A group knows its name, and its configuration is the one of that number. */
  ghost predicate GroupOk(w: World, g: nat)
    requires g in w.groups
  {
    w.groups[g].gid == g && w.groups[g].config == w.configs(w.groups[g].config.num)
  }

  ghost predicate GroupsOk(w: World) {
    forall g {:trigger GroupOk(w, g)} :: g in w.groups ==> GroupOk(w, g)
  }

  function Num(w: World, g: nat): nat
    requires g in w.groups
  {
    w.groups[g].config.num
  }

  function Owner(w: World, c: nat, sid: nat): nat
    requires sid < NSHARDS
  {
    w.configs(c).shards[sid]
  }

  ghost predicate IsSeat(w: World, sid: nat, a: nat)
    requires ConfigsOk(w) && sid < NSHARDS
  {
    && (forall c :: 0 < c < a ==> Num(w, Owner(w, c, sid)) > c)
    && (a > 0 ==> Num(w, Owner(w, a, sid)) >= a)
    && (forall c :: c > a ==> Num(w, Owner(w, c, sid)) < c)
  }

  type Seats = s: seq<nat> | |s| == NSHARDS witness seq(NSHARDS, _ => 0)

  ghost predicate SeatsOk(w: World, a: Seats)
    requires ConfigsOk(w)
  {
    forall sid {:trigger IsSeat(w, sid, a[sid])} :: 0 <= sid < NSHARDS ==> IsSeat(w, sid, a[sid])
  }

  /** The configuration numbers determine the seat. */
  lemma SeatUnique(w: World, sid: nat, a: nat, b: nat)
    requires ConfigsOk(w) && sid < NSHARDS && IsSeat(w, sid, a) && IsSeat(w, sid, b)
    ensures a == b
  {
    assert a > 0 ==> Owner(w, a, sid) in w.groups;
    assert b > 0 ==> Owner(w, b, sid) in w.groups;
  }

  /** The step drops the current copy of a shard: its donor owns the shard at its seat, and
      has something to drop. */
  ghost predicate Harmful(w: World, st: Step)
    requires Enabled(w, st)
  {
    && st.Drop? && st.d.sid < NSHARDS && ConfigsOk(w)
    && ApplyDelete(w.groups[st.d.donor], st.num, st.d.sid) != w.groups[st.d.donor]
    && exists a: nat :: a > 0 && IsSeat(w, st.d.sid, a) && Owner(w, a, st.d.sid) == st.d.donor
  }

  /** A group serves a shard only at the shard's seat. */
  lemma ServesAtSeat(w: World, a: Seats, g: nat, sid: nat)
    requires ConfigsOk(w) && GroupsOk(w) && SeatsOk(w, a) && g in w.groups && Owns(w.groups[g], sid)
    ensures a[sid] == Num(w, g) > 0 && Owner(w, a[sid], sid) == g
  {
    var c := Num(w, g);
    assert GroupOk(w, g);
    assert Owner(w, c, sid) == g;
    assert IsSeat(w, sid, a[sid]);
  }

  /** At most one group serves a shard. */
  lemma OneServes(w: World, a: Seats, g: nat, g': nat, sid: nat)
    requires ConfigsOk(w) && GroupsOk(w) && SeatsOk(w, a)
    requires g in w.groups && Owns(w.groups[g], sid) && g' in w.groups && Owns(w.groups[g'], sid)
    ensures g == g'
  {
    ServesAtSeat(w, a, g, sid);
    ServesAtSeat(w, a, g', sid);
  }

  /** Once group `g` is at configuration `c` and the owner of a shard under `c` is past it or
      is `g` itself, the seat is `c`, provided `g` owns the shard under `c + 1`. */
  lemma SeatBeforeMove(w: World, a: Seats, g: nat, sid: nat)
    requires ConfigsOk(w) && GroupsOk(w) && SeatsOk(w, a) && g in w.groups && sid < NSHARDS
    requires Owner(w, Num(w, g) + 1, sid) == g
    requires var d := Owner(w, Num(w, g), sid); d == 0 || (d in w.groups && Num(w, d) >= Num(w, g))
    ensures a[sid] == Num(w, g)
  {
    var c := Num(w, g);
    assert IsSeat(w, sid, a[sid]);
    assert Owner(w, c + 1, sid) == g;
    if c > 0 {
      assert Owner(w, c, sid) in w.groups;
    }
  }

  /** The seats after group `g` moves from configuration `c` to the next. */
  function Moved(w: World, a: Seats, g: nat, c: nat): (r: Seats)
    ensures forall sid :: 0 <= sid < NSHARDS ==> r[sid] == if Owner(w, c + 1, sid) == g then c + 1 else a[sid]
  {
    seq(NSHARDS, sid requires 0 <= sid < NSHARDS => if Owner(w, c + 1, sid) == g then c + 1 else a[sid])
  }

  /** `w'` differs from `w` at most in the group `g`. */
  ghost predicate OnlyGroup(w: World, w': World, g: nat) {
    && w'.configs == w.configs && w'.groups.Keys == w.groups.Keys
    && forall x :: x in w.groups && x != g ==> w'.groups[x] == w.groups[x]
  }

  /** A group that does not own the shard next moves on. */
  lemma BystanderMoves(w: World, a: nat, w': World, g: nat, sid: nat)
    requires ConfigsOk(w) && ConfigsOk(w') && g in w.groups && OnlyGroup(w, w', g)
    requires sid < NSHARDS && IsSeat(w, sid, a)
    requires w'.groups[g].config == w.configs(Num(w, g) + 1) && Owner(w, Num(w, g) + 1, sid) != g
    ensures IsSeat(w', sid, a)
  {
    forall c | c > 0
      ensures Owner(w', c, sid) == Owner(w, c, sid) && Owner(w, c, sid) in w.groups
      ensures c > a ==> Num(w', Owner(w', c, sid)) < c
    {
      if Owner(w, c, sid) == g {
        assert c != Num(w, g) + 1;
      }
    }
    assert a > 0 ==> Owner(w, a, sid) in w.groups;
  }

  /** The next owner of the shard moves on, when its seat has been left. */
  lemma OwnerMoves(w: World, a: nat, w': World, g: nat, sid: nat)
    requires ConfigsOk(w) && ConfigsOk(w') && g in w.groups && OnlyGroup(w, w', g)
    requires sid < NSHARDS && IsSeat(w, sid, a) && a == Num(w, g)
    requires w'.groups[g].config == w.configs(a + 1) && Owner(w, a + 1, sid) == g
    requires var d := Owner(w, a, sid); a == 0 || d == g || Num(w, d) > a
    ensures IsSeat(w', sid, a + 1)
  {
    forall c | c > 0
      ensures Owner(w', c, sid) == Owner(w, c, sid) && Owner(w, c, sid) in w.groups
      ensures c <= a ==> Num(w', Owner(w', c, sid)) > c
      ensures c > a + 1 ==> Num(w', Owner(w', c, sid)) < c
    {
      assert c == a ==> Owner(w, c, sid) == Owner(w, a, sid);
    }
    assert Num(w', Owner(w', a + 1, sid)) == a + 1;
  }

  /** A move to the next configuration, made after the groups that give up shards have moved
      on, leaves every shard with a seat. */
  lemma MoveKeepsSeats(w: World, a: Seats, w': World, g: nat)
    requires ConfigsOk(w) && GroupsOk(w) && SeatsOk(w, a) && g in w.groups && OnlyGroup(w, w', g)
    requires w'.groups[g].config == w.configs(Num(w, g) + 1)
    requires forall sid :: 0 <= sid < NSHARDS && Owner(w, Num(w, g) + 1, sid) == g ==> a[sid] == Num(w, g)
    requires forall sid :: 0 <= sid < NSHARDS && Owner(w, Num(w, g) + 1, sid) == g && Num(w, g) > 0 ==>
               Owner(w, Num(w, g), sid) == g || Num(w, Owner(w, Num(w, g), sid)) > Num(w, g)
    ensures ConfigsOk(w') && SeatsOk(w', Moved(w, a, g, Num(w, g)))
  {
    forall sid | 0 <= sid < NSHARDS ensures IsSeat(w', sid, Moved(w, a, g, Num(w, g))[sid]) {
      assert IsSeat(w, sid, a[sid]);
      if Owner(w, Num(w, g) + 1, sid) == g {
        OwnerMoves(w, a[sid], w', g, sid);
      } else {
        BystanderMoves(w, a[sid], w', g, sid);
      }
    }
  }

  lemma SameSeats(w: World, a: Seats, w': World)
    requires ConfigsOk(w) && GroupsOk(w) && SeatsOk(w, a)
    requires w'.configs == w.configs && w'.groups.Keys == w.groups.Keys
    requires forall x :: x in w.groups ==> w'.groups[x].config == w.groups[x].config && w'.groups[x].gid == w.groups[x].gid
    ensures ConfigsOk(w') && GroupsOk(w') && SeatsOk(w', a)
  {
    forall x | x in w'.groups ensures GroupOk(w', x) {
      assert GroupOk(w, x);
    }
    forall sid | 0 <= sid < NSHARDS ensures IsSeat(w', sid, a[sid]) {
      assert IsSeat(w, sid, a[sid]);
      forall x | x > 0 ensures Owner(w', x, sid) == Owner(w, x, sid) && Owner(w, x, sid) in w.groups {}
    }
  }
}
