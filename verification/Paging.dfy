/** The paging loop of `report_idp_sync_upgrade_risks` in
    deployments/upgrades/export_configs_to_helm.py. */
module Paging {
  import opened Outcomes

  /** An element of a page; `Malformed` is one without a string `id`. */
  datatype User = User(id: string) | Malformed

  /** `total_results` of a reply; a boolean is the number it equals. */
  datatype Total = Missing | Count(n: int) | NotANumber

  datatype Reply = NotAPage | Page(users: seq<User>, total: Total)

  /** A server: what it answers to `start_index`, at each request it gets. It may change its
      mind, so the number of the request is an argument too. */
  type Server = (nat, nat) -> Reply

  predicate WellFormed(users: seq<User>) {
    forall i | 0 <= i < |users| :: users[i].User?
  }

  predicate Distinct(users: seq<User>) {
    forall i, j | 0 <= i < j < |users| :: users[i] != users[j]
  }

  /** The total that a reply states when `collected` users are known, its own included. */
  function Stated(total: Total, collected: nat): Option<nat> {
    match total
    case Missing => Some(collected)
    case Count(n) => if n < 0 then None else Some(n)
    case NotANumber => None
  }

  /** The ids already seen, as the loop over one page extends them. */
  method CheckPage(page: seq<User>, seen: set<string>) returns (r: Attempt<set<string>>)
    ensures r.Granted? <==> WellFormed(page) && Distinct(page) && forall i | 0 <= i < |page| :: page[i].id !in seen
    ensures r.Granted? ==> r.value == seen + Ids(page)
  {
    var ids := seen;
    for k := 0 to |page|
      invariant WellFormed(page[..k]) && Distinct(page[..k])
      invariant forall i | 0 <= i < k :: page[i].id !in seen
      invariant ids == seen + Ids(page[..k])
    {
      if page[k].Malformed? { return Refused; }
      if page[k].id in ids {
        if page[k].id !in seen {
          var j :| 0 <= j < k && page[..k][j].id == page[k].id;
          assert page[j] == page[k];
        }
        return Refused;
      }
      forall j | 0 <= j < k ensures page[j] != page[k] { assert page[..k][j] == page[j]; }
      assert page[..k + 1] == page[..k] + [page[k]];
      ids := ids + {page[k].id};
    }
    assert page[..|page|] == page;
    return Granted(ids);
  }

  function Ids(users: seq<User>): set<string>
    requires WellFormed(users)
  {
    set i | 0 <= i < |users| :: users[i].id
  }

  // ---------- what a server has sent ----------

  function ReplyTo(server: Server, k: nat): Reply {
    server(1 + |Collected(server, k)|, k)
  }

  function PageOf(reply: Reply): seq<User> {
    if reply.Page? then reply.users else []
  }

  /** The users of the first `n` pages; each request starts right after them. */
  function Collected(server: Server, n: nat): seq<User> {
    if n == 0 then []
    else
      var before := Collected(server, n - 1);
      before + PageOf(server(1 + |before|, n - 1))
  }

  /** The total that request `k` is understood to state. */
  function TotalAt(server: Server, k: nat): Option<nat> {
    match ReplyTo(server, k)
    case NotAPage => None
    case Page(_, total) => Stated(total, |Collected(server, k + 1)|)
  }

  ghost predicate States(server: Server, k: nat, total: nat) {
    TotalAt(server, k) == Some(total)
  }

  /** The loop goes on after request `k`. */
  ghost predicate Short(server: Server, k: nat, total: nat) {
    |Collected(server, k + 1)| < total && PageOf(ReplyTo(server, k)) != []
  }

  /** Requests `0..n` went well, all stating `total`: no malformed reply and no id twice. */
  ghost predicate Sound(server: Server, n: nat, total: nat) {
    && WellFormed(Collected(server, n)) && Distinct(Collected(server, n))
    && forall k: nat | k < n :: States(server, k, total)
  }

  /** The list is complete with the last of `n` requests, and with none before. */
  ghost predicate CompleteAfter(server: Server, n: nat, total: nat) {
    && n > 0 && Sound(server, n, total) && |Collected(server, n)| >= total
    && forall k: nat | k < n - 1 :: Short(server, k, total)
  }

  lemma {:induction false} CollectedGrows(server: Server, k: nat, n: nat)
    requires k <= n
    ensures Collected(server, k) <= Collected(server, n)
  {
    if k < n { CollectedGrows(server, k, n - 1); }
  }

  lemma SoundPrefix(server: Server, k: nat, n: nat, total: nat)
    requires k <= n && Sound(server, n, total)
    ensures Sound(server, k, total)
  {
    CollectedGrows(server, k, n);
    var a, b := Collected(server, k), Collected(server, n);
    assert forall i | 0 <= i < |a| :: a[i] == b[i];
  }

  lemma SoundTotal(server: Server, n: nat, total: nat)
    requires n > 0 && Sound(server, n, total)
    ensures TotalAt(server, 0) == Some(total)
  {
    assert States(server, 0, total);
  }

  /** There is one number of requests after which the list is complete. */
  lemma CompletionIsUnique(server: Server, n: nat, total: nat, n': nat, total': nat)
    requires CompleteAfter(server, n, total) && CompleteAfter(server, n', total')
    ensures n == n' && total == total'
  {
    SoundTotal(server, n, total);
    SoundTotal(server, n', total');
    assert n < n' ==> Short(server, n - 1, total);
    assert n' < n ==> Short(server, n' - 1, total);
  }

  lemma PageAfter(seen: seq<User>, page: seq<User>)
    requires WellFormed(seen) && Distinct(seen)
    ensures
      WellFormed(seen + page) && Distinct(seen + page) <==>
        WellFormed(page) && Distinct(page) && forall i | 0 <= i < |page| :: page[i].id !in Ids(seen)
    ensures WellFormed(page) ==> Ids(seen + page) == Ids(seen) + Ids(page)
  {
    var all := seen + page;
    assert forall i | 0 <= i < |seen| :: all[i] == seen[i];
    assert forall i | 0 <= i < |page| :: all[|seen| + i] == page[i];
    if WellFormed(all) && Distinct(all) {
      forall i, j | 0 <= i < |seen| && 0 <= j < |page|
        ensures seen[i] != page[j]
      {
        assert all[i] != all[|seen| + j];
      }
    }
  }

  /** `n` requests went well and the list is still incomplete. */
  ghost predicate Going(server: Server, n: nat, expected: Option<nat>) {
    && WellFormed(Collected(server, n)) && Distinct(Collected(server, n))
    && (expected.None? <==> n == 0)
    && (expected.Some? ==> Sound(server, n, expected.value) && forall k: nat | k < n :: Short(server, k, expected.value))
  }

  /** If the list is ever complete, then after a later request, and the next one is sound. */
  lemma CompletesLater(server: Server, n: nat, expected: Option<nat>, n': nat, total: nat)
    requires Going(server, n, expected) && CompleteAfter(server, n', total)
    ensures n < n' && Sound(server, n + 1, total) && (expected.Some? ==> expected.value == total)
  {
    SoundTotal(server, n', total);
    if expected.Some? {
      SoundTotal(server, n, expected.value);
      assert n' <= n ==> Short(server, n' - 1, total);
    }
    SoundPrefix(server, n + 1, n', total);
  }

  /** One more request: sound exactly when its reply passes the checks of the loop. */
  ghost predicate Passes(server: Server, n: nat, expected: Option<nat>, total: nat)
    requires WellFormed(Collected(server, n))
  {
    var reply := ReplyTo(server, n);
    && (expected.Some? ==> expected.value == total)
    && reply.Page? && WellFormed(reply.users) && Distinct(reply.users)
    && (forall i | 0 <= i < |reply.users| :: reply.users[i].id !in Ids(Collected(server, n)))
    && Stated(reply.total, |Collected(server, n)| + |reply.users|) == Some(total)
  }

  lemma NextSound(server: Server, n: nat, expected: Option<nat>, total: nat)
    requires Going(server, n, expected) && (expected.Some? ==> expected.value == total)
    ensures Sound(server, n + 1, total) <==> Passes(server, n, expected, total)
  {
    var reply := ReplyTo(server, n);
    PageAfter(Collected(server, n), PageOf(reply));
    assert Collected(server, n + 1) == Collected(server, n) + PageOf(reply);
    assert States(server, n, total) <==> reply.Page? && Stated(reply.total, |Collected(server, n)| + |reply.users|) == Some(total);
  }

  lemma UnsoundNeverCompletes(server: Server, n: nat, expected: Option<nat>)
    requires Going(server, n, expected) && forall total: nat :: !Passes(server, n, expected, total)
    ensures forall n': nat, total: nat :: !CompleteAfter(server, n', total)
  {
    forall n': nat, total: nat
      ensures !CompleteAfter(server, n', total)
    {
      if CompleteAfter(server, n', total) {
        CompletesLater(server, n, expected, n', total);
        NextSound(server, n, expected, total);
      }
    }
  }

  lemma CompletesAfterShort(server: Server, n: nat, expected: Option<nat>, total: nat, n': nat, total': nat)
    requires Going(server, n, expected) && Passes(server, n, expected, total) && CompleteAfter(server, n', total')
    requires |Collected(server, n + 1)| < total
    ensures Short(server, n, total)
  {
    CompletesLater(server, n, expected, n', total');
    NextSound(server, n, expected, total);
    SoundTotal(server, n + 1, total);
    SoundTotal(server, n + 1, total');
    assert Short(server, n, total');
  }

  lemma EmptyPageNeverCompletes(server: Server, n: nat, expected: Option<nat>, total: nat)
    requires Going(server, n, expected) && Passes(server, n, expected, total)
    requires |Collected(server, n + 1)| < total && !Short(server, n, total)
    ensures forall n': nat, total': nat :: !CompleteAfter(server, n', total')
  {
    forall n': nat, total': nat
      ensures !CompleteAfter(server, n', total')
    {
      if CompleteAfter(server, n', total') { CompletesAfterShort(server, n, expected, total, n', total'); }
    }
  }

  lemma StillGoing(server: Server, n: nat, expected: Option<nat>, total: nat)
    requires Going(server, n, expected) && Passes(server, n, expected, total) && Short(server, n, total)
    ensures Going(server, n + 1, Some(total))
  {
    NextSound(server, n, expected, total);
  }

  lemma NowComplete(server: Server, n: nat, expected: Option<nat>, total: nat)
    requires Going(server, n, expected) && Passes(server, n, expected, total) && |Collected(server, n + 1)| >= total
    ensures CompleteAfter(server, n + 1, total)
  {
    NextSound(server, n, expected, total);
  }

  /** Fails, or returns the list as of the one request after which it is complete. */
  method EnumerateUsers(server: Server) returns (r: Attempt<seq<User>>)
    ensures r.Granted? ==> exists n: nat, total: nat :: CompleteAfter(server, n, total) && r.value == Collected(server, n)
    ensures r.Refused? ==> forall n: nat, total: nat :: !CompleteAfter(server, n, total)
  {
    var users: seq<User>, seen: set<string>, startIndex, expected: Option<nat> := [], {}, 1, None;
    var n: nat := 0;
    while true
      invariant startIndex == 1 + |users| && users == Collected(server, n)
      invariant Going(server, n, expected) && seen == Ids(users)
      invariant expected.Some? ==> |users| < expected.value
      decreases expected.None?, if expected.Some? then expected.value - |users| else 0
    {
      var response := server(startIndex, n);
      if response.NotAPage? {
        UnsoundNeverCompletes(server, n, expected);
        return Refused;
      }
      PageAfter(users, response.users);
      var ids := CheckPage(response.users, seen);
      if ids.Refused? {
        UnsoundNeverCompletes(server, n, expected);
        return Refused;
      }
      users, seen := users + response.users, ids.value;
      var total := Stated(response.total, |users|);
      if total.None? || (expected.Some? && total != expected) {
        UnsoundNeverCompletes(server, n, expected);
        return Refused;
      }
      assert Passes(server, n, expected, total.value) && users == Collected(server, n + 1);
      if |users| >= total.value {
        NowComplete(server, n, expected, total.value);
        return Granted(users);
      }
      if response.users == [] {
        EmptyPageNeverCompletes(server, n, expected, total.value);
        return Refused;
      }
      StillGoing(server, n, expected, total.value);
      expected, n := total, n + 1;
      startIndex := startIndex + |response.users|;
    }
  }

  // ---------- completion in terms of the replies ----------

  /** Request `k` got a page that states this total, or states none when that is just what
      has been collected with it. */
  ghost predicate RepliesWith(server: Server, k: nat, total: nat) {
    match server(1 + |Collected(server, k)|, k)
    case NotAPage => false
    case Page(_, stated) => stated == Count(total) || (stated == Missing && |Collected(server, k + 1)| == total)
  }

  /** It brought something and left something to fetch. */
  ghost predicate GoesOn(server: Server, k: nat, total: nat) {
    |Collected(server, k)| < |Collected(server, k + 1)| < total
  }

  lemma StatesByReply(server: Server, k: nat, total: nat)
    ensures States(server, k, total) <==> RepliesWith(server, k, total)
  {
  }

  lemma ShortByReply(server: Server, k: nat, total: nat)
    ensures Short(server, k, total) <==> GoesOn(server, k, total)
  {
    assert Collected(server, k + 1) == Collected(server, k) + PageOf(ReplyTo(server, k));
  }

  /** A list is complete after `n` requests exactly when each got such a page, no id is
      malformed or there twice, all but the last went on, and the last reached the total. */
  lemma CompletionByReplies(server: Server, n: nat, total: nat)
    ensures
      var all := Collected(server, n);
      CompleteAfter(server, n, total) <==>
        && 0 < n && total <= |all|
        && (forall i | 0 <= i < |all| :: all[i].User?) && (forall i, j | 0 <= i < j < |all| :: all[i] != all[j])
        && (forall k: nat | k < n :: RepliesWith(server, k, total)) && forall k: nat | k < n - 1 :: GoesOn(server, k, total)
  {
    forall k: nat ensures States(server, k, total) <==> RepliesWith(server, k, total) { StatesByReply(server, k, total); }
    forall k: nat ensures Short(server, k, total) <==> GoesOn(server, k, total) { ShortByReply(server, k, total); }
  }

  // ---------- an honest server ----------

  /** The server hands out nonempty pieces of one list, and states its length. */
  ghost predicate Serves(server: Server, all: seq<User>) {
    forall s: nat, k: nat | 1 <= s <= |all| + 1 :: ServesAt(server(s, k), all, s)
  }

  predicate ServesAt(reply: Reply, all: seq<User>, s: nat)
    requires 1 <= s <= |all| + 1
  {
    && reply.Page? && reply.total == Count(|all|)
    && reply.users <= all[s - 1..]
    && (s <= |all| ==> reply.users != [])
  }

  lemma PieceExtends(before: seq<User>, piece: seq<User>, all: seq<User>)
    requires before <= all && piece <= all[|before|..]
    ensures before + piece <= all
  {
    assert all == before + all[|before|..];
  }

  lemma {:induction false} CollectedIsPrefix(server: Server, all: seq<User>, n: nat)
    requires Serves(server, all)
    ensures Collected(server, n) <= all
    ensures |Collected(server, n)| >= if n <= |all| then n else |all|
  {
    if n > 0 {
      CollectedIsPrefix(server, all, n - 1);
      var before := Collected(server, n - 1);
      var reply := server(1 + |before|, n - 1);
      assert ServesAt(reply, all, 1 + |before|);
      PieceExtends(before, reply.users, all);
    }
  }

  lemma HonestReply(server: Server, all: seq<User>, k: nat)
    requires Serves(server, all)
    ensures States(server, k, |all|)
    ensures |Collected(server, k + 1)| < |all| ==> Short(server, k, |all|)
  {
    CollectedIsPrefix(server, all, k);
    assert ServesAt(ReplyTo(server, k), all, 1 + |Collected(server, k)|);
    CollectedGrows(server, k, k + 1);
  }

  ghost predicate Below(server: Server, k: nat, bound: nat) {
    |Collected(server, k)| < bound
  }

  lemma {:induction false} FirstComplete(server: Server, bound: nat, n: nat) returns (m: nat)
    requires n > 0 && !Below(server, n, bound)
    ensures 0 < m <= n && !Below(server, m, bound)
    ensures forall k: nat | 0 < k < m :: Below(server, k, bound)
  {
    if n > 1 && !Below(server, n - 1, bound) {
      m := FirstComplete(server, bound, n - 1);
    } else {
      m := n;
      forall k: nat | 0 < k < n ensures Below(server, k, bound) { CollectedGrows(server, k, n - 1); }
    }
  }

  /** The loop returns exactly the list of such a server, in order. */
  lemma HonestListIsComplete(server: Server, all: seq<User>)
    requires Serves(server, all) && WellFormed(all) && Distinct(all)
    ensures exists n: nat :: CompleteAfter(server, n, |all|)
    ensures forall n: nat, total: nat :: CompleteAfter(server, n, total) ==> Collected(server, n) == all
  {
    CollectedIsPrefix(server, all, |all| + 1);
    var m := FirstComplete(server, |all|, |all| + 1);
    CollectedIsPrefix(server, all, m);
    forall k: nat ensures States(server, k, |all|) { HonestReply(server, all, k); }
    forall k: nat | k < m - 1
      ensures Short(server, k, |all|)
    {
      assert Below(server, k + 1, |all|);
      HonestReply(server, all, k);
    }
    assert CompleteAfter(server, m, |all|);
    forall n: nat, total: nat | CompleteAfter(server, n, total)
      ensures Collected(server, n) == all
    {
      CompletionIsUnique(server, n, total, m, |all|);
    }
  }

  /** Without a stated total the first page is taken for the whole list. */
  lemma MissingTotalStopsEarly(server: Server, n: nat, total: nat)
    requires server(1, 0).Page? && server(1, 0).total.Missing? && CompleteAfter(server, n, total)
    ensures n == 1 && Collected(server, n) == server(1, 0).users
  {
    SoundTotal(server, n, total);
    assert Collected(server, 1) == server(1, 0).users;
    assert n > 1 ==> Short(server, 0, total);
  }
}
