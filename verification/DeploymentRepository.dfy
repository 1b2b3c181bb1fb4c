/** The gateway's deployment records, kept in memory (internal/infra/postgres/deployment.go). */
module DeploymentRepository {
  import opened Wrappers
  import opened Deployments

  /** Fresh names: an endless supply without repetition. */
  class UuidSource {
    const names: nat -> string
    var next: nat

    ghost predicate Valid()
      reads this
    {
      forall i: nat, j: nat :: names(i) == names(j) ==> i == j
    }

    ghost predicate Used(name: string)
      reads this
    {
      exists i: nat :: i < next && names(i) == name
    }

    constructor (names: nat -> string)
      requires forall i: nat, j: nat :: names(i) == names(j) ==> i == j
      ensures Valid() && next == 0
    {
      this.names := names;
      next := 0;
    }

    method NewString() returns (name: string)
      requires Valid()
      modifies this`next
      ensures Valid() && !old(Used(name)) && Used(name)
      ensures forall n :: old(Used(n)) ==> Used(n)
    {
      name := names(next);
      next := next + 1;
      assert next - 1 < next && names(next - 1) == name;
    }
  }

  type Records = map<string, Deployment>

  /** Every record is stored under its own id. */
  ghost predicate WellKeyed(data: Records) { forall id :: id in data ==> data[id].id == id }

  /** Every record satisfies the domain's rule. */
  ghost predicate Lawful(data: Records) {
    forall id :: id in data ==> Validate(data[id].status, data[id].finishedAt).Ok?
  }

  class Repository {
    const uuids: UuidSource
    var data: Records

    ghost predicate Valid()
      reads this, uuids
    {
      uuids.Valid() && WellKeyed(data) && forall id :: id in data ==> uuids.Used(id)
    }

    constructor (uuids: UuidSource)
      requires uuids.Valid()
      ensures Valid() && this.uuids == uuids && data == map[]
    {
      this.uuids := uuids;
      data := map[];
    }

    /** The id that the caller chose is replaced by a fresh one. */
    method CreateDeployment(deployment: Deployment) returns (id: string)
      requires Valid()
      modifies this`data, uuids
      ensures Valid() && !old(uuids.Used(id)) && id !in old(data)
      ensures data == old(data)[id := deployment.(id := id)]
      ensures forall n :: old(uuids.Used(n)) ==> uuids.Used(n)
    {
      id := uuids.NewString();
      var stored := deployment.(id := id);
      data := data[id := stored];
    }

    method GetDeployment(id: string) returns (r: Result<Deployment>)
      requires Valid()
      ensures r.Ok? <==> id in data
      ensures r.Ok? ==> r.value == data[id] && r.value.id == id
    {
      if id !in data { return Err("deployment " + id + " not found"); }
      r := Ok(data[id]);
    }

    method UpdateDeployment(deployment: Deployment) returns (r: Result<()>)
      requires Valid()
      modifies this`data
      ensures Valid() && (r.Ok? <==> deployment.id in old(data))
      ensures data == if r.Ok? then old(data)[deployment.id := deployment] else old(data)
    {
      if deployment.id !in data { return Err("deployment " + deployment.id + " not found"); }
      data := data[deployment.id := deployment];
      r := Ok(());
    }

    /** Changes the status and the finish time of a record and nothing else, and only to lawful values. */
    method RecordDeploymentStatus(id: string, status: DeploymentStatus, finishedAt: Option<nat>) returns (r: Result<()>)
      requires Valid()
      modifies this`data
      ensures Valid() && (old(Lawful(data)) ==> Lawful(data))
      ensures r.Ok? <==> id in old(data) && (finishedAt.Some? <==> status.Terminal())
      ensures data == if r.Ok? then old(data)[id := old(data)[id].(status := status, finishedAt := finishedAt)] else old(data)
    {
      var valid := Validate(status, finishedAt);
      if valid.Err? { return valid; }
      if id !in data { return Err("deployment " + id + " not found"); }
      data := data[id := Deployment(
        id, data[id].applicationID, data[id].ownerUserID, data[id].repo, data[id].sha, data[id].prNumber, status,
        data[id].startedAt, finishedAt)];
      r := Ok(());
    }

    method DeleteDeployment(id: string) returns (r: Result<()>)
      requires Valid()
      modifies this`data
      ensures Valid() && (r.Ok? <==> id in old(data)) && data == old(data) - {id}
    {
      if id !in data { return Err("deployment " + id + " not found"); }
      data := data - {id};
      r := Ok(());
    }

    /** Every record of the application, once. */
    method ListDeploymentsByApplication(applicationID: string) returns (result: seq<Deployment>)
      requires Valid()
      ensures forall d :: d in result <==> d.id in data && data[d.id] == d && d.applicationID == applicationID
      ensures forall i, j :: 0 <= i < j < |result| ==> result[i].id != result[j].id
    {
      result := [];
      var rest := data.Keys;
      while rest != {}
        invariant rest <= data.Keys
        invariant forall d :: d in result <==> d.id in data.Keys - rest && data[d.id] == d && d.applicationID == applicationID
        invariant forall i, j :: 0 <= i < j < |result| ==> result[i].id != result[j].id
        decreases |rest|
      {
        var id :| id in rest;
        if data[id].applicationID == applicationID {
          result := result + [data[id]];
        }
        rest := rest - {id};
      }
    }
  }
}
