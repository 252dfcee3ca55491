/** Declared queries of an endpoint, and what a page of root tasks has to show. */
module RootsPages {
  import opened Prelude
  import opened ObservationModel

  /** What the caller predeclares: the organisation, the target task, and every other check of a body. */
  datatype Expected = Expected(org: string, taskId: string, status: string, severity: string, project: Imaging)

  const STATUSES: seq<string> :=
    ["pending", "in_progress", "escalated", "completed", "failed", "cancelled", "superseded"]

  function RootsQuery(status: string): Fields {
    map["limit" := ["50"], "status" := [status]]
  }

  function Queries(family: Family): seq<Fields> {
    match family
    case Roots => seq(|STATUSES|, i requires 0 <= i < |STATUSES| => RootsQuery(STATUSES[i]))
    case Recall => [map["tree" := ["true"]]]
    case _ => [map[]]
  }

  function StatusOf(q: Fields): string {
    if "status" in q && q["status"] != [] then q["status"][0] else ""
  }

  predicate Contains(rows: seq<Row>, taskId: string) {
    exists i :: 0 <= i < |rows| && rows[i].taskId == taskId
  }

  /** A root row of the asked status, with its own hold, and with the declared severity if it is the target. */
  predicate RowFits(row: Row, status: string, x: Expected) {
    && row.isRoot && row.status == status
    && (row.taskId == x.taskId ==> row.severity == x.severity)
    && row.pause == Pause(x.org, row.taskId, row.status)
  }

  /** A roots page holds distinct fitting rows, and the target iff it has the page's status. */
  predicate RootsPage(rows: seq<Row>, status: string, x: Expected) {
    && (forall i :: 0 <= i < |rows| ==> RowFits(rows[i], status, x))
    && (forall i, j :: 0 <= i < j < |rows| ==> rows[i].taskId != rows[j].taskId)
    && (Contains(rows, x.taskId) <==> status == x.status)
  }

  /** The canonical image of a body for one query, or None where the body is refused. */
  function BodyImage(x: Expected): Imaging {
    (family: Family, body: Body, q: Fields) =>
      if family == Roots && !(q in Queries(Roots) && RootsPage(body.rows, StatusOf(q), x)) then None
      else x.project(family, body, q)
  }

  /** The row loop of _body_image: one pass that collects the identities it has seen. */
  method CheckRootsPage(rows: seq<Row>, status: string, x: Expected) returns (ok: bool)
    ensures ok <==> RootsPage(rows, status, x)
  {
    var seen: set<string> := {};
    var index := 0;
    while index < |rows|
      invariant index <= |rows|
      invariant forall i :: 0 <= i < index ==> RowFits(rows[i], status, x)
      invariant forall i, j :: 0 <= i < j < index ==> rows[i].taskId != rows[j].taskId
      invariant forall i :: 0 <= i < index ==> rows[i].taskId in seen
      invariant forall id :: id in seen ==> exists i :: 0 <= i < index && rows[i].taskId == id
    {
      var row := rows[index];
      if row.taskId in seen || !row.isRoot || row.status != status { return false; }
      seen := seen + {row.taskId};
      if row.taskId == x.taskId && row.severity != x.severity { return false; }
      if row.pause.org != x.org || row.pause.rootTaskId != row.taskId || row.pause.lifecycle != row.status {
        return false;
      }
      index := index + 1;
    }
    ok := (x.taskId in seen) == (status == x.status);
  }

  /** _body_image: the declared query, the row loop for a roots page, and then the rest of the body. */
  method ImageOf(x: Expected, family: Family, body: Body, q: Fields) returns (image: Option<string>)
    ensures image == BodyImage(x)(family, body, q)
    ensures family == Roots && image.Some? ==>
              q in Queries(Roots) && (Contains(body.rows, x.taskId) <==> StatusOf(q) == x.status)
  {
    if family == Roots {
      if q !in Queries(Roots) { return None; }
      var ok := CheckRootsPage(body.rows, StatusOf(q), x);
      if !ok { return None; }
    }
    image := x.project(family, body, q);
  }
}
