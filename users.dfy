/**
 * The values of the user-fetching pipeline and the effects one fetch cycle has
 * on the repository's collaborators, stated as pure functions.
 *
 * An effect log is the ordered record of what the repository did to the
 * outside world: asked the API service for a call, handed a list to the DAO,
 * or wrote a value into a LiveData slot.
 */
module Users {
  import opened Wrappers

  /** A user: an identifier and a display name. */
  datatype User = User(id: int, name: string)

  /** A list of users as Retrofit and the DAO pass it around: possibly `null`. */
  type UserList = Option<seq<User>>

  /** What `onResponse` receives: the HTTP status verdict and the nullable body. */
  datatype Response = Response(isSuccessful: bool, body: UserList)

  /** The one way an enqueued call resolves: a response arrives, or the transport fails. */
  datatype Outcome = Responded(response: Response) | Failed

  /** The response branch that persists and publishes the body. */
  predicate Succeeded(o: Outcome) {
    o.Responded? && o.response.isSuccessful
  }

  /** What an observer of the slot should end up seeing: the body on success, otherwise the empty list. */
  function Terminal(o: Outcome): UserList {
    if Succeeded(o) then o.response.body else Some([])
  }

  /** The bodies that a sequence of outcomes should have stored, in order. */
  function SuccessBodies(os: seq<Outcome>): seq<UserList> {
    if os == [] then []
    else
      var last := os[|os| - 1];
      SuccessBodies(os[..|os| - 1]) + (if Succeeded(last) then [last.response.body] else [])
  }

  /** One externally visible effect of the repository. */
  datatype Effect =
    | ApiCall                   // apiService.getUsers()
    | Insert(users: UserList)   // userDao.insertUsers(users)
    | Publish(value: UserList)  // usersLiveData.value = value

  /** The effects of the callback once the outcome is delivered, branch by branch as the handler has them. */
  function HandlerEffects(o: Outcome): (r: seq<Effect>)
    ensures 1 <= |r| <= 2 && r[|r| - 1] == Publish(Terminal(o))
    ensures |r| == 2 <==> Succeeded(o)
  {
    match o
    case Responded(response) =>
      if response.isSuccessful then [Insert(response.body), Publish(response.body)]
      else [Publish(Some([]))]
    case Failed => [Publish(Some([]))]
  }

  /** The effects of one getUsers() call whose outcome is delivered before the next call. */
  function CycleEffects(o: Outcome): (r: seq<Effect>)
    ensures 2 <= |r| && r[0] == ApiCall && r[|r| - 1] == Publish(Terminal(o))
  {
    [ApiCall] + HandlerEffects(o)
  }

  /** The effects of consecutive cycles, the earliest first. */
  function Session(os: seq<Outcome>): seq<Effect> {
    if os == [] then [] else Session(os[..|os| - 1]) + CycleEffects(os[|os| - 1])
  }

  /** How many times the API service was asked for a call. */
  function ApiCalls(t: seq<Effect>): nat {
    if t == [] then 0 else (if t[0].ApiCall? then 1 else 0) + ApiCalls(t[1..])
  }

  /** The arguments of the DAO's insertUsers calls, in order. */
  function Inserts(t: seq<Effect>): seq<UserList> {
    if t == [] then [] else (if t[0].Insert? then [t[0].users] else []) + Inserts(t[1..])
  }

  /** The values written into LiveData slots, in order. */
  function Publications(t: seq<Effect>): seq<UserList> {
    if t == [] then [] else (if t[0].Publish? then [t[0].value] else []) + Publications(t[1..])
  }

  /** Every insert is immediately followed by the publication of the same list. */
  ghost predicate InsertThenPublish(t: seq<Effect>) {
    forall i :: 0 <= i < |t| && t[i].Insert? ==> i + 1 < |t| && t[i + 1] == Publish(t[i].users)
  }

  lemma {:induction false} ApiCallsAppend(a: seq<Effect>, b: seq<Effect>)
    ensures ApiCalls(a + b) == ApiCalls(a) + ApiCalls(b)
  {
    if a == [] {
      assert a + b == b;
    } else {
      assert (a + b)[0] == a[0];
      assert (a + b)[1..] == a[1..] + b;
      ApiCallsAppend(a[1..], b);
    }
  }

  lemma {:induction false} InsertsAppend(a: seq<Effect>, b: seq<Effect>)
    ensures Inserts(a + b) == Inserts(a) + Inserts(b)
  {
    if a == [] {
      assert a + b == b;
    } else {
      var head := if a[0].Insert? then [a[0].users] else [];
      assert (a + b)[0] == a[0];
      assert (a + b)[1..] == a[1..] + b;
      InsertsAppend(a[1..], b);
      calc {
        Inserts(a + b);
        head + Inserts(a[1..] + b);
        head + (Inserts(a[1..]) + Inserts(b));
        (head + Inserts(a[1..])) + Inserts(b);
      }
    }
  }

  lemma {:induction false} PublicationsAppend(a: seq<Effect>, b: seq<Effect>)
    ensures Publications(a + b) == Publications(a) + Publications(b)
  {
    if a == [] {
      assert a + b == b;
    } else {
      var head := if a[0].Publish? then [a[0].value] else [];
      assert (a + b)[0] == a[0];
      assert (a + b)[1..] == a[1..] + b;
      PublicationsAppend(a[1..], b);
      calc {
        Publications(a + b);
        head + Publications(a[1..] + b);
        head + (Publications(a[1..]) + Publications(b));
        (head + Publications(a[1..])) + Publications(b);
      }
    }
  }

  lemma InsertThenPublishAppend(a: seq<Effect>, b: seq<Effect>)
    requires InsertThenPublish(a) && InsertThenPublish(b)
    ensures InsertThenPublish(a + b)
  {
    forall i | 0 <= i < |a + b| && (a + b)[i].Insert?
      ensures i + 1 < |a + b| && (a + b)[i + 1] == Publish((a + b)[i].users)
    {
      if i < |a| {
        assert a[i].Insert?;
      } else {
        assert b[i - |a|].Insert?;
      }
    }
  }

  /**
   * A successful response hands its body, unchanged and null included, to the
   * DAO exactly once, then publishes that same body; the API is not asked again.
   */
  lemma SuccessStoresThenPublishesBody(o: Outcome)
    requires Succeeded(o)
    ensures HandlerEffects(o) == [Insert(o.response.body), Publish(o.response.body)]
    ensures Inserts(HandlerEffects(o)) == [o.response.body]
    ensures Publications(HandlerEffects(o)) == [o.response.body]
    ensures ApiCalls(HandlerEffects(o)) == 0
  {
    var b := o.response.body;
    var t := HandlerEffects(o);
    assert t == [Insert(b), Publish(b)];
    assert t[1..] == [Publish(b)] && t[1..][1..] == [];
    assert Inserts(t[1..]) == [] && Publications(t[1..]) == [b] && ApiCalls(t[1..]) == 0;
  }

  /** An unsuccessful response or a transport failure stores nothing and publishes the empty list. */
  lemma NoSuccessPublishesEmpty(o: Outcome)
    requires !Succeeded(o)
    ensures Inserts(HandlerEffects(o)) == []
    ensures Publications(HandlerEffects(o)) == [Some([])]
    ensures ApiCalls(HandlerEffects(o)) == 0
  {
    var t := HandlerEffects(o);
    assert t[1..] == [];
  }

  /** Whatever the outcome, the handler writes exactly one value: the terminal one. */
  lemma HandlerPublishesOnce(o: Outcome)
    ensures Publications(HandlerEffects(o)) == [Terminal(o)]
    ensures Inserts(HandlerEffects(o)) == SuccessBodies([o])
    ensures InsertThenPublish(HandlerEffects(o))
  {
    assert [o][..0] == [];
    if Succeeded(o) {
      SuccessStoresThenPublishesBody(o);
    } else {
      NoSuccessPublishesEmpty(o);
    }
  }

  /** One whole cycle: one API call, then the handler's effects. */
  lemma CycleContract(o: Outcome)
    ensures ApiCalls(CycleEffects(o)) == 1
    ensures Inserts(CycleEffects(o)) == SuccessBodies([o])
    ensures Publications(CycleEffects(o)) == [Terminal(o)]
    ensures InsertThenPublish(CycleEffects(o))
  {
    HandlerPublishesOnce(o);
    if Succeeded(o) { SuccessStoresThenPublishesBody(o); } else { NoSuccessPublishesEmpty(o); }
    ApiCallsAppend([ApiCall], HandlerEffects(o));
    InsertsAppend([ApiCall], HandlerEffects(o));
    PublicationsAppend([ApiCall], HandlerEffects(o));
    InsertThenPublishAppend([ApiCall], HandlerEffects(o));
  }

  /** Over consecutive getUsers() calls the API is asked exactly once per cycle. */
  lemma {:induction false} SessionApiCalls(os: seq<Outcome>)
    ensures ApiCalls(Session(os)) == |os|
  {
    if os != [] {
      var init, last := os[..|os| - 1], os[|os| - 1];
      SessionApiCalls(init);
      CycleContract(last);
      ApiCallsAppend(Session(init), CycleEffects(last));
    }
  }

  /** Over consecutive cycles the DAO receives exactly the successful bodies, in order. */
  lemma {:induction false} SessionInserts(os: seq<Outcome>)
    ensures Inserts(Session(os)) == SuccessBodies(os)
  {
    if os != [] {
      var init, last := os[..|os| - 1], os[|os| - 1];
      SessionInserts(init);
      CycleContract(last);
      InsertsAppend(Session(init), CycleEffects(last));
      assert [last][..0] == [];
      assert SuccessBodies([last]) == (if Succeeded(last) then [last.response.body] else []);
    }
  }

  /** Over consecutive cycles each cycle writes exactly one value, its terminal one. */
  lemma {:induction false} SessionPublications(os: seq<Outcome>)
    ensures |Publications(Session(os))| == |os|
    ensures forall i :: 0 <= i < |os| ==> Publications(Session(os))[i] == Terminal(os[i])
  {
    if os != [] {
      var init, last := os[..|os| - 1], os[|os| - 1];
      SessionPublications(init);
      CycleContract(last);
      PublicationsAppend(Session(init), CycleEffects(last));
      forall i | 0 <= i < |os| ensures Publications(Session(os))[i] == Terminal(os[i]) {
        if i < |init| { assert os[i] == init[i]; }
      }
    }
  }

  /** Over consecutive cycles every insert is published right after it. */
  lemma {:induction false} SessionInsertThenPublish(os: seq<Outcome>)
    ensures InsertThenPublish(Session(os))
  {
    if os != [] {
      var init, last := os[..|os| - 1], os[|os| - 1];
      SessionInsertThenPublish(init);
      CycleContract(last);
      InsertThenPublishAppend(Session(init), CycleEffects(last));
    }
  }

  /** Failures and unsuccessful responses never reach the DAO, however many cycles run. */
  lemma {:induction false} FailuresNeverInsert(os: seq<Outcome>)
    requires forall i :: 0 <= i < |os| ==> !Succeeded(os[i])
    ensures Inserts(Session(os)) == []
    ensures Publications(Session(os)) == seq(|os|, _ => Some([]))
  {
    SessionInserts(os);
    SessionPublications(os);
    NoSuccessBodies(os);
    assert Publications(Session(os)) == seq(|os|, _ => Some([]));
  }

  lemma {:induction false} NoSuccessBodies(os: seq<Outcome>)
    requires forall i :: 0 <= i < |os| ==> !Succeeded(os[i])
    ensures SuccessBodies(os) == []
  {
    if os != [] {
      NoSuccessBodies(os[..|os| - 1]);
    }
  }
}
