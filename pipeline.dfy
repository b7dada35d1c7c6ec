/** The script's run: collect the jobs; when there are any, write jobs.csv,
    mail it, and post the digest to the chat; otherwise only print a notice.
    The outside world the script acts on is a `World` object: the file
    jobs.csv, the messages sent so far and the lines printed. */
module Pipeline {
  import opened Jobs
  import opened Csv
  import opened Telegram

  const CsvFileName: string := "jobs.csv"

  const EmailSubject: string := "Daily Java Jobs for Freshers"

  const NoJobsNotice: string := "No jobs found matching the filters."

  /** A message that leaves the process: the email with jobs.csv attached, or
      a chat message. */
  datatype Message =
    | Email(subject: string, attachmentName: string, attachment: seq<seq<string>>)
    | Chat(text: string)

  /** How a run ends: normally, or with the exception the collection raised. */
  datatype Outcome = Finished | Crashed(error: FetchError)

  class World {
    /** The rows of jobs.csv, or None while there is no such file. */
    var csvFile: Option<seq<seq<string>>>
    /** Every email and chat message sent, oldest first. */
    var outbox: seq<Message>
    /** Every line printed, oldest first. */
    var console: seq<string>

    constructor (file: Option<seq<seq<string>>>)
      ensures csvFile == file && outbox == [] && console == []
    {
      csvFile := file;
      outbox := [];
      console := [];
    }

    /** `save_to_csv`: truncate jobs.csv, write the header, then one row per
        job. Whatever the file held before is gone. */
    method SaveToCsv(jobs: seq<Job>)
      modifies this
      ensures csvFile == Some(Table(jobs))
      ensures outbox == old(outbox) && console == old(console)
    {
      csvFile := Some([]);
      csvFile := Some(csvFile.value + [FieldNames]);
      var i := 0;
      assert csvFile.value == [FieldNames] == Table(jobs[..i]);
      while i < |jobs|
        invariant 0 <= i <= |jobs|
        invariant csvFile == Some(Table(jobs[..i]))
        invariant outbox == old(outbox) && console == old(console)
      {
        assert Table(jobs[..i + 1]) == Table(jobs[..i]) + [DictRow(FieldNames, Record(jobs[i]))];
        csvFile := Some(csvFile.value + [DictRow(FieldNames, Record(jobs[i]))]);
        i := i + 1;
      }
      assert jobs[..i] == jobs;
    }

    /** `send_email`: mail jobs.csv as an attachment under its own name.
        Without the file the script raises and nothing is sent; `sent` tells
        which happened. */
    method SendEmail() returns (sent: bool)
      modifies this
      ensures sent <==> old(csvFile).Some?
      ensures sent ==> outbox == old(outbox) + [Email(EmailSubject, CsvFileName, old(csvFile).value)]
      ensures !sent ==> outbox == old(outbox)
      ensures csvFile == old(csvFile) && console == old(console)
    {
      sent := csvFile.Some?;
      if sent {
        outbox := outbox + [Email(EmailSubject, CsvFileName, csvFile.value)];
      }
    }

    /** `send_telegram`: build the digest once and send it in one call,
        whatever the number of jobs. */
    method SendTelegram(jobs: seq<Job>)
      modifies this
      ensures outbox == old(outbox) + [Chat(Digest(jobs))]
      ensures csvFile == old(csvFile) && console == old(console)
    {
      var message := BuildMessage(jobs);
      outbox := outbox + [Chat(message)];
    }

    /** The `__main__` block over the cards the page yields. A failed
        collection ends the run before anything is written or sent; an empty
        one only prints the notice; otherwise the file is saved, then mailed,
        then the digest goes to the chat. */
    method Run(cards: seq<Card>) returns (outcome: Outcome)
      modifies this
      ensures Collect(LocationTerms, cards).Err? ==>
        && outcome == Crashed(Collect(LocationTerms, cards).error)
        && csvFile == old(csvFile) && outbox == old(outbox) && console == old(console)
      ensures Collect(LocationTerms, cards) == Ok([]) ==>
        && outcome == Finished
        && csvFile == old(csvFile) && outbox == old(outbox)
        && console == old(console) + [NoJobsNotice]
      ensures Collect(LocationTerms, cards).Ok? && Collect(LocationTerms, cards).value != [] ==>
        var jobs := Collect(LocationTerms, cards).value;
        && outcome == Finished
        && csvFile == Some(Table(jobs))
        && outbox == old(outbox) + [Email(EmailSubject, CsvFileName, Table(jobs)), Chat(Digest(jobs))]
        && console == old(console)
    {
      var fetched := FetchJobs(cards);
      if fetched.Err? {
        return Crashed(fetched.error);
      }
      var jobs := fetched.value;
      if jobs != [] {
        SaveToCsv(jobs);
        var sent := SendEmail();
        assert sent;
        SendTelegram(jobs);
      } else {
        console := console + [NoJobsNotice];
      }
      outcome := Finished;
    }
  }
}
