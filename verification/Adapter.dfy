/** `deploy/hermes-adapter/adapter.py`, receiving side: `seen` and the order of checks in `do_POST`.
    Times are in milliseconds. */
module Adapters {
  import opened Wrappers

  const DEDUP_TTL: int := 900_000

  type Stamps = map<string, int>

  /** Entries older than the window are purged first; a duplicate does not refresh its entry. */
  function Purged(stamps: Stamps, now: int): Stamps {
    map k | k in stamps && now - stamps[k] <= DEDUP_TTL :: stamps[k]
  }

  function AfterSeen(stamps: Stamps, id: string, now: int): Stamps {
    var kept := Purged(stamps, now);
    if id in kept then kept else kept[id := now]
  }

  predicate IsSeen(stamps: Stamps, id: string, now: int) {
    id in Purged(stamps, now)
  }

  /** A request after the path and token checks. */
  datatype Post = Post(chatId: Option<string>, fromMe: bool, reaction: bool, id: string, now: int)

  datatype Answer = BadRequest | Dropped | Duplicate | Turn

  class Dedup {
    var stamps: Stamps

    constructor ()
      ensures stamps == map[]
    {
      stamps := map[];
    }

    method Seen(id: string, now: int) returns (r: bool)
      modifies this
      ensures stamps == AfterSeen(old(stamps), id, now)
      ensures r <==> IsSeen(old(stamps), id, now)
    {
      var expired := set k | k in stamps && now - stamps[k] > DEDUP_TTL;
      ghost var before := stamps;
      while expired != {}
        invariant forall k :: k in stamps <==> k in before && (now - before[k] <= DEDUP_TTL || k in expired)
        invariant forall k :: k in stamps ==> stamps[k] == before[k]
        invariant forall k :: k in expired ==> k in before && now - before[k] > DEDUP_TTL
        decreases |expired|
      {
        var k :| k in expired;
        stamps := stamps - {k};
        expired := expired - {k};
      }
      assert stamps == Purged(before, now);
      if id in stamps {
        return true;
      }
      stamps := stamps[id := now];
      return false;
    }
  }

  predicate ReachesDedup(p: Post) {
    p.chatId.Some? && p.chatId.value != "" && !p.fromMe && !p.reaction && p.id != ""
  }

  function AnswerTo(stamps: Stamps, p: Post): Answer {
    if p.chatId.None? || p.chatId.value == "" then BadRequest
    else if p.fromMe || p.reaction then Dropped
    else if p.id != "" && IsSeen(stamps, p.id, p.now) then Duplicate
    else Turn
  }

  function AfterPost(stamps: Stamps, p: Post): Stamps {
    if ReachesDedup(p) then AfterSeen(stamps, p.id, p.now) else stamps
  }

  /** The id was stamped no longer than fifteen minutes before. */
  predicate StampedLately(stamps: Stamps, id: string, now: int) {
    id in stamps && now - stamps[id] <= 15 * 60 * 1000
  }

  /** Which requests start a turn: those of a conversation that are neither the bot's own nor reactions, unless their id
      was stamped lately. All others leave the stamps alone. */
  lemma AnswersAreExact(stamps: Stamps, p: Post)
    ensures AnswerTo(stamps, p) == Turn <==>
            && (p.chatId.Some? && p.chatId.value != "") && !p.fromMe && !p.reaction
            && (p.id == "" || !StampedLately(stamps, p.id, p.now))
    ensures AnswerTo(stamps, p) == BadRequest <==> p.chatId.None? || p.chatId.value == ""
    ensures AnswerTo(stamps, p) == Dropped <==> AnswerTo(stamps, p) != BadRequest && (p.fromMe || p.reaction)
    ensures AnswerTo(stamps, p) == BadRequest || AnswerTo(stamps, p) == Dropped || p.id == "" ==>
              AfterPost(stamps, p) == stamps
  {
  }

  /** Turns that a sequence of requests starts for one id. */
  function Turns(stamps: Stamps, posts: seq<Post>, id: string): nat
    decreases |posts|
  {
    if posts == [] then 0
    else
      (if posts[0].id == id && AnswerTo(stamps, posts[0]) == Turn then 1 else 0)
      + Turns(AfterPost(stamps, posts[0]), posts[1..], id)
  }

  /** Once an id is stamped at or after `from`, no request up to `from + DEDUP_TTL` starts a turn
      for it, in whatever order the requests carry their instants. */
  lemma {:induction false} StampHolds(stamps: Stamps, posts: seq<Post>, id: string, from: int)
    requires id != "" && id in stamps && stamps[id] >= from
    requires forall p :: p in posts ==> p.now <= from + DEDUP_TTL
    ensures Turns(stamps, posts, id) == 0
    decreases |posts|
  {
    if posts != [] {
      assert posts[0] in posts;
      StampHolds(AfterPost(stamps, posts[0]), posts[1..], id, from);
    }
  }

  /** From any state, among any other traffic: requests for one id within one window start at most
      one turn. */
  lemma {:induction false} AtMostOneTurn(stamps: Stamps, posts: seq<Post>, id: string, from: int)
    requires id != ""
    requires forall p :: p in posts ==> p.now <= from + DEDUP_TTL && (p.id == id ==> from <= p.now)
    ensures Turns(stamps, posts, id) <= 1
    decreases |posts|
  {
    if posts != [] {
      var p := posts[0];
      assert p in posts;
      if p.id == id && AnswerTo(stamps, p) == Turn {
        StampHolds(AfterPost(stamps, p), posts[1..], id, from);
      } else {
        AtMostOneTurn(AfterPost(stamps, p), posts[1..], id, from);
      }
    }
  }

  predicate InTimeOrder(posts: seq<Post>) {
    forall i, j :: 0 <= i < j < |posts| ==> posts[i].now <= posts[j].now
  }

  /** The instant lies in one of the windows that begin at these instants. */
  predicate InWindow(windows: set<int>, now: int) {
    exists w :: w in windows && w <= now <= w + DEDUP_TTL
  }

  /** The id's stamp lasts until `hold`, or no request is left that early. */
  predicate Holds(stamps: Stamps, posts: seq<Post>, id: string, hold: int) {
    (id in stamps && stamps[id] + DEDUP_TTL >= hold) || forall p :: p in posts ==> p.now > hold
  }

  lemma LaterRequests(posts: seq<Post>)
    requires posts != [] && InTimeOrder(posts)
    ensures InTimeOrder(posts[1..]) && forall q :: q in posts[1..] ==> q in posts && q.now >= posts[0].now
  {
    forall q | q in posts[1..] ensures q.now >= posts[0].now {
      var j :| 0 <= j < |posts[1..]| && posts[1..][j] == q;
      assert posts[j + 1] == q;
    }
  }

  lemma HoldsOn(stamps: Stamps, posts: seq<Post>, id: string, hold: int)
    requires posts != [] && id != "" && InTimeOrder(posts) && Holds(stamps, posts, id, hold)
    requires !(posts[0].id == id && AnswerTo(stamps, posts[0]) == Turn)
    ensures Holds(AfterPost(stamps, posts[0]), posts[1..], id, hold)
  {
    LaterRequests(posts);
    assert posts[0] in posts;
  }

  /** A turn within window `w` uses the window up: its stamp lasts until the window ends. */
  lemma TurnStamps(stamps: Stamps, posts: seq<Post>, id: string, w: int)
    requires posts != [] && id != "" && posts[0].id == id && AnswerTo(stamps, posts[0]) == Turn && w <= posts[0].now
    ensures Holds(AfterPost(stamps, posts[0]), posts[1..], id, w + DEDUP_TTL)
  {
  }

  /** From any state and among any traffic in time order: if every request for an id lies in one of some windows, they
      start at most one turn each. */
  lemma {:induction false} TurnsWithinWindows(stamps: Stamps, posts: seq<Post>, id: string, windows: set<int>,
                                              hold: int)
    requires id != "" && InTimeOrder(posts) && Holds(stamps, posts, id, hold)
    requires forall p :: p in posts && p.id == id ==> InWindow(windows, p.now) || p.now <= hold
    ensures Turns(stamps, posts, id) <= |windows|
    decreases |posts|
  {
    if posts != [] {
      var p, rest := posts[0], posts[1..];
      var stamps' := AfterPost(stamps, p);
      LaterRequests(posts);
      if p.id == id && AnswerTo(stamps, p) == Turn {
        assert p in posts && p.now > hold;
        var w :| w in windows && w <= p.now <= w + DEDUP_TTL;
        TurnStamps(stamps, posts, id, w);
        forall q | q in rest && q.id == id ensures InWindow(windows - {w}, q.now) || q.now <= w + DEDUP_TTL {
          assert q in posts && InWindow(windows, q.now);
          var v :| v in windows && v <= q.now <= v + DEDUP_TTL;
          assert v != w ==> v in windows - {w};
        }
        TurnsWithinWindows(stamps', rest, id, windows - {w}, w + DEDUP_TTL);
      } else {
        HoldsOn(stamps, posts, id, hold);
        TurnsWithinWindows(stamps', rest, id, windows, hold);
      }
    }
  }

  /** The window is sharp: two requests for one id start two turns exactly when the second comes
      more than the window after the first. */
  lemma TwoTurnsWhenApart(id: string, chat: string, first: int, second: int)
    requires id != "" && chat != ""
    ensures var posts := [Post(Some(chat), false, false, id, first), Post(Some(chat), false, false, id, second)];
            Turns(map[], posts, id) == if second - first > DEDUP_TTL then 2 else 1
  {
    var p := Post(Some(chat), false, false, id, first);
    var q := Post(Some(chat), false, false, id, second);
    assert [p, q][1..] == [q] && [q][1..] == [];
    assert Purged(map[], first) == map[];
    var stamps := AfterPost(map[], p);
    assert stamps == map[id := first];
    assert Turns(stamps, [q], id)
           == (if AnswerTo(stamps, q) == Turn then 1 else 0) + Turns(AfterPost(stamps, q), [], id);
  }
}
