/** The /housekeepers routes of the server: create (with its duplicate-email
    check and the second insert into the users table), list by hotel,
    update and delete, over a housekeeper table keyed by id and an
    append-only users table. */
module HousekeeperRoutes {
  import opened Common

  /** A bcrypt digest, kept symbolic: the cost factor and the secret it was
      computed from. Two digests are equal exactly when both are. */
  datatype Digest = Bcrypt(rounds: nat, secret: string)

  /** The cost factor the create route hashes with. */
  const SaltRounds: nat := 10

  /** A stored housekeeper; the users table holds records of the same shape. */
  datatype Account = Account(
    name: string,
    email: string,
    password: Digest,
    contactNumber: string,
    hotelId: Id,
    isActive: bool,
    role: string)

  /** The body of POST /housekeepers. */
  datatype CreateBody = CreateBody(
    name: string, email: string, password: string, contactNumber: string,
    hotelId: Id, isActive: bool)

  /** The body of PUT /housekeepers/:id: the five fields the route copies. */
  datatype UpdateBody = UpdateBody(
    name: string, email: string, contactNumber: string, hotelId: Id, isActive: bool)

  /** `Housekeeper.findOne({ email })` finds a record. */
  predicate EmailTaken(table: map<Id, Account>, email: string) {
    exists id :: id in table && table[id].email == email
  }

  /** The record both inserts save: the body's fields, the password replaced
      by its bcrypt digest at cost 10, and the role "Housekeeper". */
  function NewAccount(body: CreateBody): (a: Account)
    ensures a.password == Bcrypt(SaltRounds, body.password)
    ensures a.role == "Housekeeper"
    ensures a.name == body.name && a.email == body.email && a.contactNumber == body.contactNumber
    ensures a.hotelId == body.hotelId && a.isActive == body.isActive
  {
    Account(body.name, body.email, Bcrypt(SaltRounds, body.password), body.contactNumber,
            body.hotelId, body.isActive, "Housekeeper")
  }

  /** The update `findByIdAndUpdate` applies: the five fields from the body;
      the password digest and the role are never touched. */
  function Updated(a: Account, body: UpdateBody): (r: Account)
    ensures r.password == a.password && r.role == a.role
    ensures r.name == body.name && r.email == body.email && r.contactNumber == body.contactNumber
    ensures r.hotelId == body.hotelId && r.isActive == body.isActive
  {
    a.(name := body.name, email := body.email, contactNumber := body.contactNumber,
       hotelId := body.hotelId, isActive := body.isActive)
  }

  /** `Housekeeper.find({ hotelId })`: the records of that hotel. */
  function OfHotel(table: map<Id, Account>, hotelId: Id): (r: map<Id, Account>)
    ensures forall id :: id in r <==> id in table && table[id].hotelId == hotelId
    ensures forall id :: id in r ==> r[id] == table[id]
  {
    map id | id in table && table[id].hotelId == hotelId :: table[id]
  }

  class HousekeeperDirectory {
    var housekeepers: map<Id, Account>
    var users: seq<Account>

    constructor()
      ensures housekeepers == map[] && users == []
    {
      housekeepers := map[];
      users := [];
    }

    /** POST /housekeepers. `newId` is the id the database gives the new
        record. A taken email is refused with 400 and nothing is written;
        otherwise the same record goes into both tables and is returned
        with 201. */
    method Create(body: CreateBody, newId: Id) returns (reply: Reply<Account>)
      requires newId !in housekeepers
      modifies this
      ensures EmailTaken(old(housekeepers), body.email) ==>
        && reply == Err(400, "Housekeeper with this email already exists.")
        && housekeepers == old(housekeepers) && users == old(users)
      ensures !EmailTaken(old(housekeepers), body.email) ==>
        && reply == Ok(201, NewAccount(body))
        && housekeepers == old(housekeepers)[newId := NewAccount(body)]
        && users == old(users) + [NewAccount(body)]
    {
      if EmailTaken(housekeepers, body.email) {
        return Err(400, "Housekeeper with this email already exists.");
      }
      var account := NewAccount(body);
      housekeepers := housekeepers[newId := account];
      users := users + [account];
      reply := Ok(201, account);
    }

    /** GET /housekeepers/:hotelId: the hotel's housekeepers, or 404 when it
        has none. */
    function ListByHotel(hotelId: Id): (reply: Reply<map<Id, Account>>)
      reads this
      ensures reply.Err? <==> forall id :: id in housekeepers ==> housekeepers[id].hotelId != hotelId
      ensures reply.Err? ==> reply == Err(404, "No housekeepers found for this hotel.")
      ensures reply.Ok? ==> reply.code == 200 && reply.body == OfHotel(housekeepers, hotelId)
    {
      var found := OfHotel(housekeepers, hotelId);
      if found == map[] then
        Err(404, "No housekeepers found for this hotel.")
      else
        Ok(200, found)
    }

    /** PUT /housekeepers/:id: 404 for an unknown id; otherwise the five
        fields are replaced and the updated record returned. The users
        table is not touched. */
    method Update(id: Id, body: UpdateBody) returns (reply: Reply<Account>)
      modifies this
      ensures id !in old(housekeepers) ==>
        reply == Err(404, "Housekeeper not found") && housekeepers == old(housekeepers)
      ensures id in old(housekeepers) ==>
        && housekeepers == old(housekeepers)[id := Updated(old(housekeepers)[id], body)]
        && reply == Ok(200, housekeepers[id])
      ensures users == old(users)
    {
      if id !in housekeepers {
        return Err(404, "Housekeeper not found");
      }
      housekeepers := housekeepers[id := Updated(housekeepers[id], body)];
      reply := Ok(200, housekeepers[id]);
    }

    /** DELETE /housekeepers/:id: 404 for an unknown id; otherwise the record
        is removed. The matching users record stays. */
    method Delete(id: Id) returns (reply: Reply<string>)
      modifies this
      ensures id !in old(housekeepers) ==>
        reply == Err(404, "Housekeeper not found") && housekeepers == old(housekeepers)
      ensures id in old(housekeepers) ==>
        reply == Ok(200, "Housekeeper deleted successfully")
        && housekeepers == old(housekeepers) - {id}
      ensures users == old(users)
    {
      if id !in housekeepers {
        return Err(404, "Housekeeper not found");
      }
      housekeepers := housekeepers - {id};
      reply := Ok(200, "Housekeeper deleted successfully");
    }
  }

  /** No two housekeepers share an email. */
  ghost predicate DistinctEmails(table: map<Id, Account>) {
    forall i, j :: i in table && j in table && i != j ==> table[i].email != table[j].email
  }

  /** Create's duplicate check keeps emails distinct. */
  lemma CreateKeepsEmailsDistinct(table: map<Id, Account>, body: CreateBody, newId: Id)
    requires DistinctEmails(table) && newId !in table && !EmailTaken(table, body.email)
    ensures DistinctEmails(table[newId := NewAccount(body)])
  {
  }

  /** Update checks nothing: setting one housekeeper's email to another's
      gives two records with the same email. */
  lemma UpdateCanDuplicateEmail(a: Account, b: Account, body: UpdateBody)
    requires body.email == b.email
    ensures !DistinctEmails(map["h1" := b, "h2" := a][ "h2" := Updated(a, body)])
  {
    var t := map["h1" := b, "h2" := a]["h2" := Updated(a, body)];
    assert "h1" in t && "h2" in t && t["h1"].email == t["h2"].email;
  }
}
