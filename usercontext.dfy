/** The client-side profile cache shared by every page: it is loaded once
    with a bounded number of attempts, and after each successful create,
    update or delete it reconciles its list with the server's answer
    without reloading. Network answers are parameters. */
module UserContext {
  import opened Seqs
  import opened Profile

  /** What one HTTP call gave back: a response body, or an error carrying
      the response status when there was a response. */
  datatype Reply<T> = Ok(data: T) | Fail(status: Option<int>)

  /** Why a cache operation rejected. */
  datatype Reason = Validation | Http(status: Option<int>)

  /** How a cache operation's promise settles. */
  datatype Settled<T> = Resolved(value: T) | Rejected(reason: Reason)

  /** What one attempt of the initial load got: an array, some other
      body, a 404 error, or any other error. */
  datatype FetchOutcome = Array(data: seq<User>) | NonArray | Err404 | ErrOther

  /** The list the load leaves and the number of attempts it made. */
  datatype Fetched = Fetched(users: seq<User>, attempts: nat)

  /** The attempts loop from attempt `attempt` on, with `outcomes[k]` the
      outcome of attempt `k + 1`: an array is kept and ends the load; a
      non-array body empties the list and goes on to the next attempt at
      once; a 404 empties the list and ends the load; any other error goes
      on to the next attempt while attempts remain, else empties the list. */
  function Fetch(users: seq<User>, outcomes: seq<FetchOutcome>, attempt: nat, retries: nat): Fetched
    requires 1 <= attempt && retries <= |outcomes|
    decreases retries + 1 - attempt
  {
    if attempt > retries then Fetched(users, attempt - 1)
    else match outcomes[attempt - 1]
      case Array(data) => Fetched(data, attempt)
      case NonArray => Fetch([], outcomes, attempt + 1, retries)
      case Err404 => Fetched([], attempt)
      case ErrOther =>
        if attempt < retries then Fetch(users, outcomes, attempt + 1, retries) else Fetched([], attempt)
  }

  /** An outcome that ends the load. */
  predicate Decisive(o: FetchOutcome) {
    o.Array? || o.Err404?
  }

  /** Reference result of the load: the first decisive outcome among the
      remaining attempts decides (its array, or the empty list for a 404)
      and is the last attempt made; without one every attempt is made and
      the list ends empty, unless no attempt is made at all. */
  function Settle(users: seq<User>, window: seq<FetchOutcome>, before: nat): Fetched {
    match FindIndex(window, Decisive)
    case Some(k) => Fetched(if window[k].Array? then window[k].data else [], before + k + 1)
    case None => Fetched(if window == [] then users else [], before + |window|)
  }

  /** A step that is not decisive does not change what the rest decides,
      once at least one attempt remains after it. */
  lemma SettleStep(users: seq<User>, users': seq<User>, window: seq<FetchOutcome>, before: nat)
    requires |window| >= 2 && !Decisive(window[0])
    ensures Settle(users, window, before) == Settle(users', window[1..], before + 1)
  {
    var rest := window[1..];
    match FindIndex(rest, Decisive)
    case Some(k) => {
      assert window[k + 1] == rest[k];
      assert FindIndex(window, Decisive) == Some(k + 1);
    }
    case None => {
      assert FindIndex(window, Decisive) == None;
    }
  }

  /** The loop agrees with the reference from any attempt on. */
  lemma {:induction false} FetchSettles(users: seq<User>, outcomes: seq<FetchOutcome>, attempt: nat, retries: nat)
    requires 1 <= attempt <= retries + 1 && retries <= |outcomes|
    ensures Fetch(users, outcomes, attempt, retries) == Settle(users, outcomes[attempt - 1..retries], attempt - 1)
    decreases retries + 1 - attempt
  {
    var window := outcomes[attempt - 1..retries];
    if attempt <= retries {
      var o := outcomes[attempt - 1];
      assert window[0] == o;
      if Decisive(o) {
        assert FindIndex(window, Decisive) == Some(0);
      } else if attempt < retries {
        var next := if o.NonArray? then [] else users;
        FetchSettles(next, outcomes, attempt + 1, retries);
        assert window[1..] == outcomes[attempt..retries];
        SettleStep(users, next, window, attempt - 1);
      } else {
        assert window == [o];
        assert FindIndex(window, Decisive) == None;
      }
    }
  }

  /** The three-attempt load the provider runs: at most three attempts; a
      load decided by an array keeps that array, one decided by a 404 or by
      running out of attempts leaves the empty list. */
  lemma FetchUsersThreeAttempts(users: seq<User>, outcomes: seq<FetchOutcome>)
    requires 3 <= |outcomes|
    ensures 1 <= Fetch(users, outcomes, 1, 3).attempts <= 3
    ensures var f := Fetch(users, outcomes, 1, 3);
      outcomes[f.attempts - 1].Array? ==> f.users == outcomes[f.attempts - 1].data
    ensures var f := Fetch(users, outcomes, 1, 3);
      !outcomes[f.attempts - 1].Array? ==> f.users == []
    ensures forall k :: 0 <= k < Fetch(users, outcomes, 1, 3).attempts - 1 ==> !Decisive(outcomes[k])
  {
    FetchSettles(users, outcomes, 1, 3);
    var window := outcomes[0..3];
    match FindIndex(window, Decisive)
    case Some(k) => assert window[k] == outcomes[k];
    case None => assert window[2] == outcomes[2];
  }

  /** `users.find(user => user.id === id)`. */
  function Lookup(users: seq<User>, id: Option<Id>): (r: Option<User>)
    ensures r.Some? ==> r.value in users && r.value.id == id
    ensures r.None? <==> forall i :: 0 <= i < |users| ==> users[i].id != id
    ensures r.Some? ==> exists i :: 0 <= i < |users| && users[i] == r.value
                                 && forall j :: 0 <= j < i ==> users[j].id != id
  {
    var k := FindIndex(users, (u: User) => u.id == id);
    if k.Some? then Some(users[k.value]) else None
  }

  /** `prevUsers.map(user => user.id === id ? data : user)`: the answer at
      every position holding the id, every other position kept, so with no
      match the list is unchanged. */
  function ReplaceById(users: seq<User>, id: Option<Id>, data: User): (r: seq<User>)
    ensures |r| == |users|
    ensures forall i :: 0 <= i < |users| && users[i].id == id ==> r[i] == data
    ensures forall i :: 0 <= i < |users| && users[i].id != id ==> r[i] == users[i]
    ensures (forall i :: 0 <= i < |users| ==> users[i].id != id) ==> r == users
  {
    seq(|users|, i requires 0 <= i < |users| => if users[i].id == id then data else users[i])
  }

  /** `prevUsers.filter(user => user.id !== id)`. */
  function RemoveById(users: seq<User>, id: Option<Id>): seq<User> {
    Filter(users, (u: User) => u.id != id)
  }

  /** After a replace by an answer carrying the same id, looking the id up
      finds the answer exactly when the id was in the list. */
  lemma LookupAfterReplace(users: seq<User>, id: Option<Id>, data: User)
    requires data.id == id
    ensures Lookup(ReplaceById(users, id, data), id)
         == if Lookup(users, id).Some? then Some(data) else None
  {
    var r := ReplaceById(users, id, data);
    if Lookup(users, id).Some? {
      var i :| 0 <= i < |users| && users[i].id == id && forall j :: 0 <= j < i ==> users[j].id != id;
      var k := FindIndex(r, (u: User) => u.id == id);
      assert r[i].id == id;
      assert k.Some? && k.value <= i;
      assert users[k.value].id == id;
    }
  }

  /** A delete removes exactly the entries with the id and keeps the others
      in their order. */
  lemma RemoveByIdKeepsOthers(users: seq<User>, id: Option<Id>)
    ensures forall i :: 0 <= i < |RemoveById(users, id)| ==> RemoveById(users, id)[i].id != id
    ensures forall i :: 0 <= i < |users| && users[i].id != id ==> users[i] in RemoveById(users, id)
    ensures forall i :: 0 <= i < |RemoveById(users, id)| ==> RemoveById(users, id)[i] in users
    ensures Lookup(RemoveById(users, id), id).None?
  {
    FilterMembers(users, (u: User) => u.id != id);
  }

  /** The delete is a filter, so it is an order-preserving subsequence. */
  lemma RemoveByIdSubsequence(users: seq<User>, id: Option<Id>)
    ensures var ks := KeptIndices(users, (u: User) => u.id != id);
      && |ks| == |RemoveById(users, id)|
      && (forall k :: 0 <= k < |ks| ==> ks[k] < |users| && RemoveById(users, id)[k] == users[ks[k]])
      && (forall k, l :: 0 <= k < l < |ks| ==> ks[k] < ks[l])
  {
    FilterIsSubsequence(users, (u: User) => u.id != id);
  }

  /** After an append, a lookup finds what it found before, or else the
      appended entry when that one carries the id. */
  lemma LookupAfterAppend(users: seq<User>, x: User, id: Option<Id>)
    ensures Lookup(users + [x], id)
         == if Lookup(users, id).Some? then Lookup(users, id) else if x.id == id then Some(x) else None
  {
    var p := (u: User) => u.id == id;
    var a := users + [x];
    if Lookup(users, id).Some? {
      var k := FindIndex(users, p).value;
      assert a[k] == users[k];
      assert FindIndex(a, p) == Some(k) by {
        assert forall j :: 0 <= j < k ==> a[j] == users[j];
      }
    } else {
      assert forall j :: 0 <= j < |users| ==> a[j] == users[j];
      assert a[|users|] == x;
    }
  }

  /** The cache. */
  class UserCache {
    var users: seq<User>

    constructor()
      ensures users == []
    {
      users := [];
    }

    /** The initial load with at most `retries` attempts. */
    method FetchUsers(outcomes: seq<FetchOutcome>, retries: nat) returns (attempts: nat)
      requires retries <= |outcomes|
      modifies this
      ensures Fetched(users, attempts) == Fetch(old(users), outcomes, 1, retries)
    {
      var attempt := 1;
      while attempt <= retries
        invariant 1 <= attempt <= retries + 1
        invariant Fetch(users, outcomes, attempt, retries) == Fetch(old(users), outcomes, 1, retries)
        decreases retries + 1 - attempt
      {
        var o := outcomes[attempt - 1];
        if o.Array? {
          users := o.data;
          return attempt;
        } else if o.NonArray? {
          users := [];
        } else if o.Err404? {
          users := [];
          return attempt;
        } else if attempt == retries {
          users := [];
        }
        attempt := attempt + 1;
      }
      attempts := attempt - 1;
    }

    /** Create: rejects without a request unless name and profession are
      truthy (photo is not checked here); on success appends the answer body
      as it is and resolves with its `id`; on an HTTP error rejects with the
      list unchanged. */
    method AddUser(newUser: Payload, response: Reply<User>) returns (r: Settled<Option<Id>>)
      modifies this
      ensures !newUser.form.name.Truthy() || !newUser.form.profession.Truthy() ==>
        r == Rejected(Validation) && users == old(users)
      ensures newUser.form.name.Truthy() && newUser.form.profession.Truthy() && response.Ok? ==>
        users == old(users) + [response.data] && r == Resolved(response.data.id)
      ensures newUser.form.name.Truthy() && newUser.form.profession.Truthy() && response.Fail? ==>
        users == old(users) && r == Rejected(Http(response.status))
    {
      if !newUser.form.name.Truthy() || !newUser.form.profession.Truthy() {
        return Rejected(Validation);
      }
      match response
      case Ok(data) =>
        users := users + [data];
        r := Resolved(data.id);
      case Fail(status) =>
        r := Rejected(Http(status));
    }

    /** Update: on success every entry with the id is replaced by the answer
      body; on an HTTP error the list is unchanged. */
    method UpdateUser(id: Option<Id>, updatedUser: Payload, response: Reply<User>) returns (r: Settled<()>)
      modifies this
      ensures response.Ok? ==> users == ReplaceById(old(users), id, response.data) && r == Resolved(())
      ensures response.Fail? ==> users == old(users) && r == Rejected(Http(response.status))
    {
      match response
      case Ok(data) =>
        users := ReplaceById(users, id, data);
        r := Resolved(());
      case Fail(status) =>
        r := Rejected(Http(status));
    }

    /** Delete: on success every entry with the id is dropped; on an HTTP
      error the list is unchanged. */
    method DeleteUser(id: Option<Id>, response: Reply<()>) returns (r: Settled<()>)
      modifies this
      ensures response.Ok? ==> users == RemoveById(old(users), id) && r == Resolved(())
      ensures response.Fail? ==> users == old(users) && r == Rejected(Http(response.status))
    {
      match response
      case Ok(_) =>
        users := RemoveById(users, id);
        r := Resolved(());
      case Fail(status) =>
        r := Rejected(Http(status));
    }

    /** The first cached profile with the id, if any. */
    function GetUserById(id: Option<Id>): (r: Option<User>)
      reads this
      ensures r.Some? ==> r.value in users && r.value.id == id
      ensures r.None? <==> forall i :: 0 <= i < |users| ==> users[i].id != id
      ensures r.Some? ==> exists i :: 0 <= i < |users| && users[i] == r.value
                                   && forall j :: 0 <= j < i ==> users[j].id != id
    {
      Lookup(users, id)
    }
  }
}
