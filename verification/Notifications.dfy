/** Notifications, and the requests for missing geodata that must not pile up. */
module Notifications {
  import opened Domain
  import opened Mappers
  import opened Ledgers
  import opened Lifecycle
  import opened ChainGraph
  import opened ChainSearch
  import opened SupplyChain

  datatype NotificationType =
    | TransactionPending | TransactionAccepted | TransactionRejected | TransactionExpired
    | GeodataMissing | GeodataUpdated

  /** `Unread` is the stored status "pending". */
  datatype NotificationStatus = Unread | Read

  datatype Notification = Notification(
    kind: NotificationType,
    status: NotificationStatus,
    transaction: TransactionId,
    receivedBy: UserId,
    createdBy: Option<UserId>)

  /** An unread request for the geodata of a transaction, addressed to a user. */
  predicate IsOpenRequest(n: Notification, receiver: UserId, id: TransactionId) {
    n.kind == GeodataMissing && n.status == Unread && n.receivedBy == receiver && n.transaction == id
  }

  function OpenRequests(rows: seq<Notification>, receiver: UserId, id: TransactionId): nat {
    if rows == [] then 0
    else (if IsOpenRequest(rows[0], receiver, id) then 1 else 0) + OpenRequests(rows[1..], receiver, id)
  }

  lemma {:induction false} OpenRequestsAppend(rows: seq<Notification>, more: seq<Notification>, receiver: UserId, id: TransactionId)
    ensures OpenRequests(rows + more, receiver, id) == OpenRequests(rows, receiver, id) + OpenRequests(more, receiver, id)
    decreases |rows|
  {
    if rows == [] {
      assert rows + more == more;
    } else {
      assert (rows + more)[1..] == rows[1..] + more;
      OpenRequestsAppend(rows[1..], more, receiver, id);
    }
  }

  lemma {:induction false} OpenRequestExists(rows: seq<Notification>, k: nat, receiver: UserId, id: TransactionId)
    requires k < |rows| && IsOpenRequest(rows[k], receiver, id)
    ensures OpenRequests(rows, receiver, id) > 0
  {
    assert rows == rows[..k] + ([rows[k]] + rows[k + 1..]);
    OpenRequestsAppend(rows[..k], [rows[k]] + rows[k + 1..], receiver, id);
  }

  lemma {:induction false} NoOpenRequest(rows: seq<Notification>, receiver: UserId, id: TransactionId)
    requires forall k :: 0 <= k < |rows| ==> !IsOpenRequest(rows[k], receiver, id)
    ensures OpenRequests(rows, receiver, id) == 0
    decreases |rows|
  {
    if rows != [] {
      NoOpenRequest(rows[1..], receiver, id);
    }
  }

  ghost function OpenIndices(rows: seq<Notification>, receiver: UserId, id: TransactionId): set<nat> {
    set k | 0 <= k < |rows| && IsOpenRequest(rows[k], receiver, id)
  }

  lemma OpenIndicesOfLast(rows: seq<Notification>, receiver: UserId, id: TransactionId)
    requires rows != []
    ensures var n := |rows| - 1;
            n !in OpenIndices(rows[..n], receiver, id)
            && OpenIndices(rows, receiver, id)
               == OpenIndices(rows[..n], receiver, id) + if IsOpenRequest(rows[n], receiver, id) then {n} else {}
  {
  }

  lemma {:induction false} OpenRequestsAreIndices(rows: seq<Notification>, receiver: UserId, id: TransactionId)
    ensures OpenRequests(rows, receiver, id) == |OpenIndices(rows, receiver, id)|
    decreases |rows|
  {
    if rows != [] {
      var n := |rows| - 1;
      OpenRequestsAreIndices(rows[..n], receiver, id);
      OpenRequestsAppend(rows[..n], [rows[n]], receiver, id);
      OpenIndicesOfLast(rows, receiver, id);
      assert rows == rows[..n] + [rows[n]] && [rows[n]][1..] == [];
    }
  }

  /** What is counted, on columns: unread requests for the geodata of the transaction, to the receiver. */
  lemma OpenRequestsOnColumns(rows: seq<Notification>, receiver: UserId, id: TransactionId)
    ensures OpenRequests(rows, receiver, id) == |set k | 0 <= k < |rows| && rows[k].kind == GeodataMissing
                                                         && rows[k].status == Unread && rows[k].receivedBy == receiver
                                                         && rows[k].transaction == id|
  {
    OpenRequestsAreIndices(rows, receiver, id);
    assert OpenIndices(rows, receiver, id) == set k | 0 <= k < |rows| && rows[k].kind == GeodataMissing
                                                      && rows[k].status == Unread && rows[k].receivedBy == receiver
                                                      && rows[k].transaction == id;
  }

  /** At most one open request per receiver and transaction. */
  ghost predicate AtMostOne(rows: seq<Notification>) {
    forall receiver: UserId, id: TransactionId :: OpenRequests(rows, receiver, id) <= 1
  }

  // ---- single operations ----

  /** A request is stored unless the same one is open; anything else is always stored. */
  function Notified(rows: seq<Notification>, n: Notification): seq<Notification> {
    if n.kind == GeodataMissing && OpenRequests(rows, n.receivedBy, n.transaction) > 0 then rows else rows + [n]
  }

  lemma NotifiedCounts(rows: seq<Notification>, n: Notification, receiver: UserId, id: TransactionId)
    requires n.status == Unread
    ensures OpenRequests(Notified(rows, n), receiver, id) ==
              if n.kind == GeodataMissing && n.receivedBy == receiver && n.transaction == id
              then Max(1, OpenRequests(rows, receiver, id))
              else OpenRequests(rows, receiver, id)
  {
    OpenRequestsAppend(rows, [n], receiver, id);
    assert [n][1..] == [];
  }

  lemma NotifiedKeepsAtMostOne(rows: seq<Notification>, n: Notification)
    requires AtMostOne(rows) && n.status == Unread
    ensures AtMostOne(Notified(rows, n))
  {
    forall receiver: UserId, id: TransactionId ensures OpenRequests(Notified(rows, n), receiver, id) <= 1 {
      NotifiedCounts(rows, n, receiver, id);
    }
  }

  /** Reading a notification can only close requests. */
  lemma ReadingKeepsAtMostOne(rows: seq<Notification>, k: nat)
    requires AtMostOne(rows) && k < |rows|
    ensures AtMostOne(rows[k := rows[k].(status := Read)])
  {
    var rows' := rows[k := rows[k].(status := Read)];
    forall receiver: UserId, id: TransactionId ensures OpenRequests(rows', receiver, id) <= 1 {
      assert rows == rows[..k] + ([rows[k]] + rows[k + 1..]);
      assert rows' == rows[..k] + ([rows'[k]] + rows[k + 1..]);
      OpenRequestsAppend(rows[..k], [rows[k]] + rows[k + 1..], receiver, id);
      OpenRequestsAppend(rows[..k], [rows'[k]] + rows[k + 1..], receiver, id);
      assert ([rows[k]] + rows[k + 1..])[1..] == ([rows'[k]] + rows[k + 1..])[1..];
      assert OpenRequests(rows, receiver, id) <= 1;
    }
  }

  // ---- any history of operations ----

  datatype Act = Create(kind: NotificationType, transaction: TransactionId, receiver: UserId, creator: Option<UserId>)
               | MarkRead(user: UserId, index: nat)

  predicate CanRead(rows: seq<Notification>, user: UserId, index: nat) {
    index < |rows| && rows[index].receivedBy == user && rows[index].status == Unread
  }

  function Perform(rows: seq<Notification>, act: Act): seq<Notification> {
    match act
    case Create(kind, id, receiver, creator) => Notified(rows, Notification(kind, Unread, id, receiver, creator))
    case MarkRead(user, index) =>
      if CanRead(rows, user, index) then rows[index := rows[index].(status := Read)] else rows
  }

  function PerformAll(acts: seq<Act>): seq<Notification> {
    if acts == [] then [] else Perform(PerformAll(acts[..|acts| - 1]), acts[|acts| - 1])
  }

  /** In every reachable state there is at most one open request per receiver and transaction. */
  lemma {:induction false} AtMostOneForever(acts: seq<Act>)
    ensures AtMostOne(PerformAll(acts))
    decreases |acts|
  {
    if acts != [] {
      var rows := PerformAll(acts[..|acts| - 1]);
      AtMostOneForever(acts[..|acts| - 1]);
      match acts[|acts| - 1]
      case Create(kind, id, receiver, creator) =>
        NotifiedKeepsAtMostOne(rows, Notification(kind, Unread, id, receiver, creator));
      case MarkRead(user, index) =>
        if CanRead(rows, user, index) {
          ReadingKeepsAtMostOne(rows, index);
        }
    }
  }

  // ---- requests for missing geodata ----

  /** The first-chain transactions that lack a location and have somebody to ask. */
  ghost function Unlocated(txs: Table, root: TransactionId): set<TransactionId> {
    set i | i in FirstChain(txs, root) && txs[i].location.None? && txs[i].buyer.Some?
  }

  /** What asking for a set of transactions does: exactly one open request each where there was
      at most one, and nothing for anything else. */
  ghost predicate Requested(rows: seq<Notification>, txs: Table, targets: set<TransactionId>, rows': seq<Notification>) {
    && rows <= rows'
    && forall receiver: UserId, id: TransactionId ::
         OpenRequests(rows', receiver, id) ==
           if id in targets && id in txs && txs[id].buyer == Some(receiver)
           then Max(1, OpenRequests(rows, receiver, id))
           else OpenRequests(rows, receiver, id)
  }

  /** Everything added is an open request by `user`, for a target that had none. */
  ghost predicate OnlyNewRequests(rows: seq<Notification>, txs: Table, targets: set<TransactionId>, user: UserId,
                                  rows': seq<Notification>)
  {
    && |rows| <= |rows'|
    && forall k :: |rows| <= k < |rows'| ==>
         var n := rows'[k];
         && n.transaction in targets && n.transaction in txs
         && IsOpenRequest(n, n.receivedBy, n.transaction) && n.createdBy == Some(user)
         && txs[n.transaction].buyer == Some(n.receivedBy)
         && OpenRequests(rows, n.receivedBy, n.transaction) == 0
  }

  lemma NewRequestHadNone(rows: seq<Notification>, txs: Table, targets: set<TransactionId>, user: UserId, rows': seq<Notification>)
    requires OnlyNewRequests(rows, txs, targets, user, rows') && |rows| < |rows'|
    ensures exists i :: i in targets && i in txs && txs[i].buyer.Some? && OpenRequests(rows, txs[i].buyer.value, i) == 0
  {
    var n := rows'[|rows|];
    assert n.transaction in targets && OpenRequests(rows, n.receivedBy, n.transaction) == 0;
  }

  /** After a request every target has exactly one open request, and an immediate repeat adds
      nothing. */
  lemma RepeatAddsNothing(rows: seq<Notification>, txs: Table, targets: set<TransactionId>, user: UserId,
                          rows': seq<Notification>, again: UserId, rows'': seq<Notification>)
    requires AtMostOne(rows)
    requires Requested(rows, txs, targets, rows') && OnlyNewRequests(rows, txs, targets, user, rows')
    requires Requested(rows', txs, targets, rows'') && OnlyNewRequests(rows', txs, targets, again, rows'')
    ensures forall i :: i in targets && i in txs && txs[i].buyer.Some? ==> OpenRequests(rows', txs[i].buyer.value, i) == 1
    ensures AtMostOne(rows')
    ensures rows'' == rows'
  {
    forall receiver: UserId, id: TransactionId ensures OpenRequests(rows', receiver, id) <= 1 {
      assert OpenRequests(rows, receiver, id) <= 1;
    }
    forall i | i in targets && i in txs && txs[i].buyer.Some? ensures OpenRequests(rows', txs[i].buyer.value, i) == 1 {
      assert OpenRequests(rows, txs[i].buyer.value, i) <= 1;
    }
    if |rows'| < |rows''| {
      NewRequestHadNone(rows', txs, targets, again, rows'');
      assert false;
    }
  }

  /** On reachable ledgers nobody in a first chain is skipped for want of a buyer. */
  lemma FirstChainHasBuyers(s: Ledger, root: TransactionId, i: TransactionId)
    requires Consistent(s) && i in FirstChain(s.txs, root)
    ensures s.txs[i].buyer.Some?
  {
    assert RowOk(s.txs[i]);
  }

  /** On reachable ledgers a request leaves every first-chain transaction without a location with
      a buyer and exactly one open request to that buyer. */
  lemma EverybodyIsAskedOnce(s: Ledger, root: TransactionId, rows: seq<Notification>, rows': seq<Notification>, i: TransactionId)
    requires Consistent(s) && AtMostOne(rows) && Requested(rows, s.txs, Unlocated(s.txs, root), rows')
    requires i in FirstChain(s.txs, root) && s.txs[i].location.None?
    ensures s.txs[i].buyer.Some? && OpenRequests(rows', s.txs[i].buyer.value, i) == 1
  {
    FirstChainHasBuyers(s, root, i);
    assert OpenRequests(rows, s.txs[i].buyer.value, i) <= 1;
  }

  /** A request reaches every producer in the ancestry of an accepted transaction: whichever lacks
      a location has exactly one open request to its buyer afterwards. */
  lemma EveryOriginIsAskedOnce(s: Ledger, root: TransactionId, rows: seq<Notification>, rows': seq<Notification>, r: TransactionId)
    requires Consistent(s) && AtMostOne(rows) && Requested(rows, s.txs, Unlocated(s.txs, root), rows')
    requires root in s.acceptedAt && r in Origins(s, root) && s.txs[r].location.None?
    ensures s.txs[r].buyer.Some? && OpenRequests(rows', s.txs[r].buyer.value, r) == 1
  {
    OriginsAreInFirstChain(s, root);
    EverybodyIsAskedOnce(s, root, rows, rows', r);
  }

  lemma SameEdgesSameChain(txs: Table, txs': Table, root: TransactionId)
    requires txs.Keys == txs'.Keys && forall i :: i in txs ==> txs'[i] == txs[i].(location := txs'[i].location)
    ensures Chain(Storage, txs, root) <= Chain(Storage, txs', root)
  {
    forall x | x in Chain(Storage, txs, root) ensures x in Chain(Storage, txs', root) {
      var path :| IsPath(Storage, txs, root, path) && path[|path| - 1] == x;
      forall k | 0 <= k < |path| - 1 ensures Edge(Storage, txs', root, path[k], path[k + 1]) {
        assert Edge(Storage, txs, root, path[k], path[k + 1]);
      }
      assert IsPath(Storage, txs', root, path);
    }
  }

  lemma LocatingSettlesRequests(txs: Table, id: TransactionId, location: Location, txs': Table, root: TransactionId)
    requires id in txs && txs' == txs[id := txs[id].(location := Some(location))]
    ensures Unlocated(txs', root) == Unlocated(txs, root) - {id}
  {
    SameEdgesSameChain(txs, txs', root);
    SameEdgesSameChain(txs', txs, root);
  }

  /** Updating the geodata of a transaction settles it for every request to come, whichever
      transaction the request starts from, and settles nothing else. */
  lemma GeodataSettlesRequests(round: Rounding, s: Ledger, user: UserId, id: TransactionId, location: Location, s': Ledger,
                               root: TransactionId)
    requires TakesPart(s.txs, user, id) && s' == Apply(round, s, UpdateGeodata(user, id, location, true))
    ensures Unlocated(s'.txs, root) == Unlocated(s.txs, root) - {id}
  {
    LocatingSettlesRequests(s.txs, id, location, s'.txs, root);
  }

  class NotificationsService {
    var rows: seq<Notification>

    constructor ()
      ensures rows == []
    {
      rows := [];
    }

    /** The open request for a transaction, if there is one. */
    method FindOpenRequest(receiver: UserId, id: TransactionId) returns (found: Option<nat>)
      ensures found.None? <==> OpenRequests(rows, receiver, id) == 0
      ensures found.Some? <==>
                exists k :: 0 <= k < |rows| && rows[k].kind == GeodataMissing && rows[k].status == Unread
                            && rows[k].receivedBy == receiver && rows[k].transaction == id
      ensures found.Some? ==> found.value < |rows| && IsOpenRequest(rows[found.value], receiver, id)
    {
      for k := 0 to |rows|
        invariant forall j :: 0 <= j < k ==> !IsOpenRequest(rows[j], receiver, id)
      {
        if IsOpenRequest(rows[k], receiver, id) {
          OpenRequestExists(rows, k, receiver, id);
          return Some(k);
        }
      }
      NoOpenRequest(rows, receiver, id);
      found := None;
    }

    method CreateFromTransaction(kind: NotificationType, id: TransactionId, receiver: UserId, creator: Option<UserId>)
      returns (index: nat)
      modifies this
      ensures rows == Perform(old(rows), Create(kind, id, receiver, creator))
      ensures rows == if kind == GeodataMissing
                         && exists k :: 0 <= k < |old(rows)| && old(rows)[k].kind == GeodataMissing && old(rows)[k].status == Unread
                                        && old(rows)[k].receivedBy == receiver && old(rows)[k].transaction == id
                      then old(rows) else old(rows) + [Notification(kind, Unread, id, receiver, creator)]
      ensures index < |rows| && rows[index].kind == kind && rows[index].status == Unread
      ensures rows[index].transaction == id && rows[index].receivedBy == receiver
    {
      if kind == GeodataMissing {
        var found := FindOpenRequest(receiver, id);
        if found.Some? {
          return found.value;
        }
      }
      index := |rows|;
      rows := rows + [Notification(kind, Unread, id, receiver, creator)];
    }

    /** Tells everybody who ever asked, once per request of theirs. */
    method CreateGeodataUpdated(id: TransactionId, user: UserId)
      modifies this
      ensures rows == old(rows) + Answers(old(rows), id, user)
    {
      var asked := rows;
      for k := 0 to |asked|
        invariant rows == asked + Answers(asked[..k], id, user)
      {
        AnswersNext(asked, k, id, user);
        if IsAnswered(asked[k], id) {
          var index := CreateFromTransaction(GeodataUpdated, id, asked[k].createdBy.value, Some(user));
        }
      }
      assert asked[..|asked|] == asked;
    }

    method UpdateStatus(user: UserId, index: nat) returns (r: Result<()>)
      modifies this
      ensures rows == Perform(old(rows), MarkRead(user, index))
      ensures r.Success? <==> index < |old(rows)| && old(rows)[index].receivedBy == user && old(rows)[index].status == Unread
      ensures rows == if r.Success? then old(rows)[index := old(rows)[index].(status := Read)] else old(rows)
      ensures r.Failure? ==> r.error == NotFound
    {
      if !CanRead(rows, user, index) {
        return Failure(NotFound);
      }
      rows := rows[index := rows[index].(status := Read)];
      r := Success(());
    }

    /** Asks the buyer of every first-chain transaction without a location. */
    method RequestMissingGeodata(txs: Table, user: UserId, id: TransactionId) returns (r: Result<()>)
      modifies this
      ensures r.Success? <==> id in txs && (txs[id].buyer == Some(user) || txs[id].seller == Some(user))
      ensures r.Failure? ==> r.error == NotFound && rows == old(rows)
      ensures r.Success? ==> Requested(old(rows), txs, Unlocated(txs, id), rows)
      ensures r.Success? ==> OnlyNewRequests(old(rows), txs, Unlocated(txs, id), user, rows)
    {
      if !TakesPart(txs, user, id) {
        return Failure(NotFound);
      }
      var first := GetFirstChainTransactions(txs, id);
      var missing := set i | i in first && i in txs && txs[i].location.None?;
      ghost var targets := Unlocated(txs, id);
      ghost var done: set<TransactionId> := {};
      while missing != {}
        invariant missing <= first && missing !! done
        invariant done <= targets <= done + missing
        invariant forall i :: i in missing ==> i in txs && (txs[i].buyer.Some? ==> i in targets)
        invariant Requested(old(rows), txs, done, rows)
        invariant OnlyNewRequests(old(rows), txs, done, user, rows)
        decreases missing
      {
        var i :| i in missing;
        missing := missing - {i};
        if txs[i].buyer.None? {
          continue;
        }
        ghost var before := rows;
        var index := CreateFromTransaction(GeodataMissing, i, txs[i].buyer.value, Some(user));
        AskedOneMore(old(rows), txs, done, user, before, i, rows);
        done := done + {i};
      }
      assert done == targets;
      r := Success(());
    }
  }

  /** A request, open or read, whose author is known. */
  predicate IsAnswered(n: Notification, id: TransactionId) {
    n.kind == GeodataMissing && n.transaction == id && n.createdBy.Some?
  }

  /** One `GeodataUpdated` per answered request. */
  function Answers(rows: seq<Notification>, id: TransactionId, user: UserId): seq<Notification> {
    if rows == [] then []
    else
      var last := rows[|rows| - 1];
      Answers(rows[..|rows| - 1], id, user)
      + if IsAnswered(last, id) then [Notification(GeodataUpdated, Unread, id, last.createdBy.value, Some(user))] else []
  }

  lemma AnswersNext(rows: seq<Notification>, k: nat, id: TransactionId, user: UserId)
    requires k < |rows|
    ensures Answers(rows[..k + 1], id, user) == Answers(rows[..k], id, user) +
              if IsAnswered(rows[k], id) then [Notification(GeodataUpdated, Unread, id, rows[k].createdBy.value, Some(user))] else []
  {
    assert rows[..k + 1][..k] == rows[..k];
  }

  /** The answered requests, in order. */
  ghost function Asked(rows: seq<Notification>, id: TransactionId): seq<nat> {
    if rows == [] then []
    else
      var n := |rows| - 1;
      Asked(rows[..n], id) + if IsAnswered(rows[n], id) then [n] else []
  }

  /** On columns: all requests for the transaction with a known author, open or read, each once. */
  lemma {:induction false} AskedOnColumns(rows: seq<Notification>, id: TransactionId)
    ensures forall j, k :: 0 <= j < k < |Asked(rows, id)| ==> Asked(rows, id)[j] < Asked(rows, id)[k]
    ensures forall k: nat :: k in Asked(rows, id) <==>
              k < |rows| && rows[k].kind == GeodataMissing && rows[k].transaction == id && rows[k].createdBy != None
    decreases |rows|
  {
    if rows != [] {
      var n := |rows| - 1;
      var asked := Asked(rows[..n], id);
      AskedOnColumns(rows[..n], id);
      forall j | 0 <= j < |asked| ensures asked[j] < n {
        var k := asked[j];
        assert k in asked;
      }
      assert forall k: nat :: k < n ==> rows[..n][k] == rows[k];
    }
  }

  /** Each author gets one unread notification for each request, from the user. */
  lemma {:induction false} AnswersOnColumns(rows: seq<Notification>, id: TransactionId, user: UserId, j: nat)
    requires j < |Answers(rows, id, user)|
    ensures |Answers(rows, id, user)| == |Asked(rows, id)|
    ensures var k := Asked(rows, id)[j];
            && k < |rows| && rows[k].createdBy != None
            && Answers(rows, id, user)[j] == Notification(GeodataUpdated, Unread, id, rows[k].createdBy.value, Some(user))
    decreases |rows|
  {
    var n := |rows| - 1;
    AnswersAreAsked(rows[..n], id, user);
    AnswersAreAsked(rows, id, user);
    if j < |Answers(rows[..n], id, user)| {
      AnswersOnColumns(rows[..n], id, user, j);
    }
  }

  lemma {:induction false} AnswersAreAsked(rows: seq<Notification>, id: TransactionId, user: UserId)
    ensures |Answers(rows, id, user)| == |Asked(rows, id)|
    decreases |rows|
  {
    if rows != [] {
      AnswersAreAsked(rows[..|rows| - 1], id, user);
    }
  }

  /** Answering neither opens nor closes a request. */
  lemma {:induction false} AnsweringKeepsRequests(rows: seq<Notification>, asked: seq<Notification>, id: TransactionId,
                                                  user: UserId, receiver: UserId, other: TransactionId)
    ensures OpenRequests(rows + Answers(asked, id, user), receiver, other) == OpenRequests(rows, receiver, other)
    decreases |asked|
  {
    if asked == [] {
      assert rows + [] == rows;
    } else {
      var n := |asked| - 1;
      var before := rows + Answers(asked[..n], id, user);
      AnsweringKeepsRequests(rows, asked[..n], id, user, receiver, other);
      if IsAnswered(asked[n], id) {
        var answer := Notification(GeodataUpdated, Unread, id, asked[n].createdBy.value, Some(user));
        assert rows + Answers(asked, id, user) == before + [answer];
        NotifiedCounts(before, answer, receiver, other);
      } else {
        assert rows + Answers(asked, id, user) == before;
      }
    }
  }

  lemma AskedOneMore(rows: seq<Notification>, txs: Table, done: set<TransactionId>, user: UserId,
                     before: seq<Notification>, i: TransactionId, after: seq<Notification>)
    requires Requested(rows, txs, done, before) && OnlyNewRequests(rows, txs, done, user, before)
    requires i !in done && i in txs && txs[i].buyer.Some?
    requires after == Perform(before, Create(GeodataMissing, i, txs[i].buyer.value, Some(user)))
    ensures Requested(rows, txs, done + {i}, after) && OnlyNewRequests(rows, txs, done + {i}, user, after)
  {
    var n := Notification(GeodataMissing, Unread, i, txs[i].buyer.value, Some(user));
    forall receiver: UserId, id: TransactionId
      ensures OpenRequests(after, receiver, id) ==
                if id in done + {i} && id in txs && txs[id].buyer == Some(receiver)
                then Max(1, OpenRequests(rows, receiver, id))
                else OpenRequests(rows, receiver, id)
    {
      NotifiedCounts(before, n, receiver, id);
    }
    assert OpenRequests(before, n.receivedBy, i) == OpenRequests(rows, n.receivedBy, i);
  }
}
