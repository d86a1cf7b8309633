/**
  Desires and their document collections (internal/desires/types.go and crud.go).

  A table holds one collection of every management cluster's specs database; a key is
  the management cluster together with the document id. Each store call is atomic and
  carries the network's answer as a parameter.
 */
module Desires {
  import opened Wrappers
  import opened DesireId

  type MC = string

  datatype ResourceReference = ResourceReference(
    group: string, version: string, resource: string, namespace: string, name: string)

  /** The object a desire applies: a ManagedHostedCluster or a Namespace. */
  datatype Manifest =
    | Cluster(namespace: string, name: string, clusterID: string, body: string)
    | Namespace(name: string)

  datatype ApplyDesire = ApplyDesire(
    managementCluster: MC, clusterID: string, target: ResourceReference, content: Option<Manifest>)

  /** ReadDesire and DeleteDesire have the same spec. */
  datatype TargetDesire = TargetDesire(managementCluster: MC, clusterID: string, target: ResourceReference)

  datatype Loc = Loc(mc: MC, id: DocumentID)

  datatype Document<+T> = Document(value: T, createTime: nat, updateTime: nat)

  /** `clock` is the time of the latest write. */
  datatype Table<T> = Table(docs: map<Loc, Document<T>>, clock: nat) {
    function Inserted(loc: Loc, v: T): Table<T> {
      Table(docs[loc := Document(v, clock + 1, clock + 1)], clock + 1)
    }

    function Replaced(loc: Loc, v: T): Table<T>
      requires loc in docs
    {
      Table(docs[loc := Document(v, docs[loc].createTime, clock + 1)], clock + 1)
    }

    function Removed(loc: Loc): Table<T> {
      Table(docs - {loc}, clock)
    }
  }

  datatype Error = NotFound | AlreadyExists | PreconditionFailed | EmptyDocumentID | Unavailable

  /** How one call ends: with the store's answer; applied, but reported as an error; or
      failed without any effect. */
  datatype Outcome = Answered | Lost | Failed

  function Report<T>(o: Outcome, r: Result<T, Error>): Result<T, Error> {
    if o == Answered then r else Failure(Unavailable)
  }

  class Collection<T> {
    var table: Table<T>

    constructor (docs: map<Loc, Document<T>>, clock: nat)
      ensures table == Table(docs, clock)
    {
      table := Table(docs, clock);
    }

    method Get(loc: Loc, o: Outcome) returns (r: Result<Document<T>, Error>)
      ensures r == Report(o, match Lookup(table.docs, loc)
                             case Some(d) => Success(d)
                             case None => Failure(NotFound))
    {
      if o != Answered {
        return Failure(Unavailable);
      }
      if loc in table.docs {
        r := Success(table.docs[loc]);
      } else {
        r := Failure(NotFound);
      }
    }

    method Create(loc: Loc, v: T, o: Outcome) returns (r: Result<Document<T>, Error>)
      modifies this
      ensures table == if loc.id != Unset && o != Failed && loc !in old(table.docs)
                       then old(table).Inserted(loc, v) else old(table)
      ensures r == if loc.id == Unset then Failure(EmptyDocumentID)
                   else if o != Answered then Failure(Unavailable)
                   else if loc in old(table.docs) then Failure(AlreadyExists)
                   else Success(table.docs[loc])
    {
      if loc.id == Unset {
        return Failure(EmptyDocumentID);
      }
      if o == Failed {
        return Failure(Unavailable);
      }
      if loc in table.docs {
        r := Report(o, Failure(AlreadyExists));
      } else {
        table := table.Inserted(loc, v);
        r := Report(o, Success(table.docs[loc]));
      }
    }

    /** Overwrites the value of `d`'s document, provided the stored version is still `d`'s. */
    method Replace(loc: Loc, d: Document<T>, o: Outcome) returns (r: Result<Document<T>, Error>)
      modifies this
      ensures table == if o != Failed && loc in old(table.docs) && old(table).docs[loc].updateTime == d.updateTime
                       then old(table).Replaced(loc, d.value) else old(table)
      ensures r == Report(o,
                          if loc !in old(table.docs) then Failure(NotFound)
                          else if old(table).docs[loc].updateTime != d.updateTime then Failure(PreconditionFailed)
                          else Success(d.(updateTime := table.docs[loc].updateTime)))
    {
      if o == Failed {
        return Failure(Unavailable);
      }
      if loc !in table.docs {
        r := Report(o, Failure(NotFound));
      } else if table.docs[loc].updateTime != d.updateTime {
        r := Report(o, Failure(PreconditionFailed));
      } else {
        table := table.Replaced(loc, d.value);
        r := Report(o, Success(d.(updateTime := table.docs[loc].updateTime)));
      }
    }

    /** Deleting an absent document succeeds. */
    method Delete(loc: Loc, o: Outcome) returns (r: Result<(), Error>)
      modifies this
      ensures table == if o == Failed then old(table) else old(table).Removed(loc)
      ensures r == Report(o, Success(()))
    {
      if o == Failed {
        return Failure(Unavailable);
      }
      table := table.Removed(loc);
      r := Report(o, Success(()));
    }
  }
}
