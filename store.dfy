/** The airport store the service reads and writes. Only its abstract
    operations are modelled: listing all rows, updating a row by FAA code and
    inserting a row that is ignored when its site number is already present. */
module Store {
  import opened Domain

  /** Why a store operation failed. */
  datatype StoreError =
    | StoreUnavailable   // the database could not be reached or the statement failed
    | NoRowAffected      // an update named an FAA code that has no row
    | DuplicateFaa       // an insert reused the FAA code of a row with another site number

  /** True when some stored row has this site number. */
  predicate SiteTaken(records: map<string, Airport>, siteNumber: string) {
    exists k | k in records :: records[k].siteNumber == siteNumber
  }

  /** The error, if any, of updating the row keyed by `a.faa` with `a`. */
  function UpdateError(records: map<string, Airport>, a: Airport, reachable: bool): (e: Option<StoreError>)
    ensures e.None? <==> reachable && a.faa in records
  {
    if !reachable then Some(StoreUnavailable)
    else if a.faa !in records then Some(NoRowAffected)
    else None
  }

  /** The error, if any, of inserting `a`. A row with the same site number
      makes the insert a silent no-op, not an error. */
  function CreateError(records: map<string, Airport>, a: Airport, reachable: bool): (e: Option<StoreError>)
    ensures e.None? <==> reachable && (SiteTaken(records, a.siteNumber) || a.faa !in records)
  {
    if !reachable then Some(StoreUnavailable)
    else if SiteTaken(records, a.siteNumber) then None
    else if a.faa in records then Some(DuplicateFaa)
    else None
  }

  /** True when inserting `a` adds a row. */
  predicate Inserts(records: map<string, Airport>, a: Airport, reachable: bool) {
    CreateError(records, a, reachable).None? && !SiteTaken(records, a.siteNumber)
  }

  /** The rows named by `keys`, in the order of `keys`. */
  function Rows(records: map<string, Airport>, keys: seq<string>): (s: seq<Airport>)
    requires forall i :: 0 <= i < |keys| ==> keys[i] in records
    ensures |s| == |keys|
    ensures forall i :: 0 <= i < |s| ==> s[i] == records[keys[i]]
  {
    if keys == [] then [] else [records[keys[0]]] + Rows(records, keys[1..])
  }

  class AirportStore {
    /** The rows, keyed by FAA code. */
    var records: map<string, Airport>
    /** The FAA codes in the order in which a listing returns the rows. */
    var order: seq<string>

    ghost predicate Valid()
      reads this
    {
      && (forall i, j :: 0 <= i < j < |order| ==> order[i] != order[j])
      && (forall k :: k in records <==> k in order)
      && (forall k :: k in records ==> records[k].faa == k)
    }

    /** The rows in listing order. */
    function Listing(): (s: seq<Airport>)
      reads this
      requires Valid()
      ensures |s| == |order|
      ensures forall i :: 0 <= i < |s| ==> s[i] == records[order[i]]
    {
      assert forall i :: 0 <= i < |order| ==> order[i] in records;
      Rows(records, order)
    }

    /** An empty store. */
    constructor ()
      ensures Valid() && records == map[] && order == []
    {
      records := map[];
      order := [];
    }

    /** All rows in listing order, or an error when the store is unreachable. */
    method GetAllAirports(reachable: bool) returns (r: Result<seq<Airport>, StoreError>)
      requires Valid()
      ensures r.Err? <==> !reachable
      ensures r.Err? ==> r.error == StoreUnavailable
      ensures r.Ok? ==> r.value == Listing()
    {
      if !reachable {
        return Err(StoreUnavailable);
      }
      return Ok(Listing());
    }

    /** Replaces the row keyed by `a.faa` with `a`; nothing changes on error. */
    method UpdateAirport(a: Airport, reachable: bool) returns (e: Option<StoreError>)
      requires Valid()
      modifies this
      ensures Valid() && order == old(order)
      ensures e == UpdateError(old(records), a, reachable)
      ensures records == if e.None? then old(records)[a.faa := a] else old(records)
    {
      e := UpdateError(records, a, reachable);
      if e.None? {
        records := records[a.faa := a];
      }
    }

    /** Inserts `a` unless a row with its site number exists; nothing changes on error. */
    method Create(a: Airport, reachable: bool) returns (e: Option<StoreError>)
      requires Valid()
      modifies this
      ensures Valid()
      ensures e == CreateError(old(records), a, reachable)
      ensures Inserts(old(records), a, reachable) ==>
                records == old(records)[a.faa := a] && order == old(order) + [a.faa]
      ensures !Inserts(old(records), a, reachable) ==>
                records == old(records) && order == old(order)
    {
      e := CreateError(records, a, reachable);
      if e.None? && !SiteTaken(records, a.siteNumber) {
        records := records[a.faa := a];
        order := order + [a.faa];
      }
    }
  }
}
