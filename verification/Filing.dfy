/**
 What an Error leaves behind: one unresolved report for each of its positive reports, in order,
 if the agent is known.
 */
module Filing {
  import opened Wrappers
  import opened Tables
  import opened Protocol

  /** The reports that are acted on, in order. */
  function Positive(reports: seq<ReportItem>): (r: seq<ReportItem>)
    ensures forall k :: 0 <= k < |r| ==> Counted(r[k])
  {
    if reports == [] then []
    else
      var last := reports[|reports| - 1];
      Positive(reports[..|reports| - 1]) + (if Counted(last) then [last] else [])
  }

  lemma PositiveOneMore(reports: seq<ReportItem>, last: ReportItem)
    ensures Positive(reports + [last]) == if Counted(last) then Positive(reports) + [last] else Positive(reports)
  {
    assert (reports + [last])[..|reports|] == reports;
  }

  /** The row is about the report: filed for the agent with this thumbprint, about the manifest
      the digest names if it names one, with the bytes of the report. */
  ghost predicate Files(db: Db, kid: Bytes, report: ReportItem, row: ReportRow)
  {
    && Counted(report)
    && PicksAgent(db.agents, kid, Some(row.agent))
    && PicksManifestByDigest(db.manifests, DigestKey(report), row.manifest)
    && row.report == report.raw && !row.resolved
  }

  ghost predicate FilesEach(db: Db, kid: Bytes, reports: seq<ReportItem>, rows: seq<ReportRow>)
  {
    |rows| == |reports| && forall k :: 0 <= k < |rows| ==> Files(db, kid, reports[k], rows[k])
  }

  /** Each positive report, and nothing else, is filed, unless the agent is unknown. */
  ghost predicate Filed(before: Db, db: Db, kid: Bytes, reports: seq<ReportItem>)
  {
    && db == before.(reports := db.reports) && before.reports <= db.reports
    && (if KnownAgent(before.agents, kid)
        then FilesEach(before, kid, Positive(reports), db.reports[|before.reports|..])
        else db.reports == before.reports)
  }

  lemma NothingFiled(db: Db, kid: Bytes)
    ensures Filed(db, db, kid, [])
  {
  }

  lemma SkippedIsFiled(before: Db, db: Db, kid: Bytes, reports: seq<ReportItem>, last: ReportItem)
    requires Filed(before, db, kid, reports) && (!Counted(last) || !KnownAgent(before.agents, kid))
    ensures Filed(before, db, kid, reports + [last])
  {
    hide Counted, Files;
    PositiveOneMore(reports, last);
  }

  lemma FilesEachAndOne(db: Db, kid: Bytes, reports: seq<ReportItem>, rows: seq<ReportRow>, last: ReportItem,
                        row: ReportRow)
    requires FilesEach(db, kid, reports, rows) && Files(db, kid, last, row)
    ensures FilesEach(db, kid, reports + [last], rows + [row])
  {
    hide Files;
  }

  lemma RowsAfter(before: seq<ReportRow>, rows: seq<ReportRow>, row: ReportRow)
    requires before <= rows
    ensures before <= rows + [row] && (rows + [row])[|before|..] == rows[|before|..] + [row]
  {
  }

  /** One more positive report is one more row. */
  lemma FiledOneMore(before: Db, db: Db, kid: Bytes, reports: seq<ReportItem>, last: ReportItem, row: ReportRow)
    requires Filed(before, db, kid, reports) && Files(before, kid, last, row)
    ensures Filed(before, Apply(db, PutReport(row)), kid, reports + [last])
  {
    assert Counted(last) && KnownAgent(before.agents, kid);
    hide Counted, Files, FilesEach, KnownAgent, Positive;
    PositiveOneMore(reports, last);
    FilesEachAndOne(before, kid, Positive(reports), db.reports[|before.reports|..], last, row);
    RowsAfter(before.reports, db.reports, row);
  }
}
