/** The layout of jobs.csv (`save_to_csv`): the records are dictionaries
    keyed by the five column names, and the writer puts each record's values
    out in the order of its `fieldnames`, after a header row of those names. */
module Csv {
  import opened Jobs

  /** The writer's `fieldnames`, which are also the keys of every record. */
  const FieldNames: seq<string> := ["Title", "Company", "Location", "Posted", "Link"]

  /** The key under which a field is stored in a record. */
  function Key(f: Field): string {
    match f
    case Title => "Title"
    case Company => "Company"
    case Location => "Location"
    case Posted => "Posted"
    case Link => "Link"
  }

  /** The dictionary appended for a kept card: its keys are exactly the
      column names, and each key holds the matching field of the job. */
  function Record(j: Job): (d: map<string, string>)
    ensures forall key :: key in d <==> key in FieldNames
    ensures forall f :: Key(f) in d && d[Key(f)] == Get(j, f)
  {
    map["Title" := j.title, "Company" := j.company, "Location" := j.location,
        "Posted" := j.posted, "Link" := j.link]
  }

  /** One `writerow(d)`: the value under each fieldname, in fieldname order,
      and the empty string where the key is absent. A key that is not a
      fieldname makes the writer raise, so the record must have none. */
  function DictRow(fieldnames: seq<string>, d: map<string, string>): (row: seq<string>)
    requires forall key :: key in d ==> key in fieldnames
    ensures |row| == |fieldnames|
    ensures forall c :: 0 <= c < |row| && fieldnames[c] in d ==> row[c] == d[fieldnames[c]]
    ensures forall c :: 0 <= c < |row| && fieldnames[c] !in d ==> row[c] == ""
  {
    seq(|fieldnames|, c requires 0 <= c < |fieldnames| =>
      if fieldnames[c] in d then d[fieldnames[c]] else "")
  }

  /** The rows of jobs.csv: `writeheader()`, then one `writerow` per job. */
  function Table(jobs: seq<Job>): (t: seq<seq<string>>)
    ensures |t| == |jobs| + 1 && t[0] == FieldNames
    ensures forall i :: 0 <= i < |t| ==> |t[i]| == |FieldNames|
  {
    [FieldNames] + seq(|jobs|, i requires 0 <= i < |jobs| => DictRow(FieldNames, Record(jobs[i])))
  }

  /** The row written for a job holds its fields in header order. */
  lemma RowLayout(j: Job)
    ensures DictRow(FieldNames, Record(j)) == [j.title, j.company, j.location, j.posted, j.link]
  {
  }

  /** The file is the fixed header followed by exactly one row per job, in
      list order, each row holding the job's fields in header order. */
  lemma TableLayout(jobs: seq<Job>)
    ensures |Table(jobs)| == |jobs| + 1
    ensures Table(jobs)[0] == ["Title", "Company", "Location", "Posted", "Link"]
    ensures forall i :: 0 <= i < |jobs| ==>
      Table(jobs)[i + 1] == [jobs[i].title, jobs[i].company, jobs[i].location, jobs[i].posted, jobs[i].link]
  {
    forall i | 0 <= i < |jobs|
      ensures Table(jobs)[i + 1] == [jobs[i].title, jobs[i].company, jobs[i].location, jobs[i].posted, jobs[i].link]
    {
      RowLayout(jobs[i]);
    }
  }
}
