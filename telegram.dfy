/** The Telegram digest (`send_telegram`): a fixed header, then one entry for
    each of the first ten jobs, in list order. */
module Telegram {
  import opened Jobs

  /** The pushpin emoji and the bold title the message opens with. */
  const Header: string := "\U{1F4CC} *Today's Java Jobs (Freshers)*\n\n"

  /** No more than this many jobs are put in the message. */
  const Cap: nat := 10

  /** The Markdown entry for one job, the pieces of the f-string joined: a
      link titled with the job title, the company and location, and the
      posting time on a second line. The template adds 21 characters to the
      five fields, and the entry starts and ends with a line break. */
  function Entry(j: Job): (e: string)
    ensures |e| == |j.title| + |j.link| + |j.company| + |j.location| + |j.posted| + 21
    ensures e[0] == '\n' && e[|e| - 1] == '\n'
  {
    Join11("\n[", j.title, "](", j.link, ") - ", j.company, " (", j.location, ")\nPosted: ", j.posted, "\n");
    Concat(["\n[", j.title, "](", j.link, ") - ", j.company, " (", j.location, ")\nPosted: ", j.posted, "\n"])
  }

  /** Joining eleven pieces gives their concatenation. */
  lemma Join11(a0: string, a1: string, a2: string, a3: string, a4: string, a5: string,
               a6: string, a7: string, a8: string, a9: string, a10: string)
    ensures Concat([a0, a1, a2, a3, a4, a5, a6, a7, a8, a9, a10])
         == a0 + (a1 + (a2 + (a3 + (a4 + (a5 + (a6 + (a7 + (a8 + (a9 + a10)))))))))
  {
    var ps := [a0, a1, a2, a3, a4, a5, a6, a7, a8, a9, a10];
    assert ps[10..] == [a10];
    assert Concat(ps[10..]) == a10;
    assert ps[9..][1..] == ps[10..];
    assert Concat(ps[9..]) == a9 + a10;
    assert ps[8..][1..] == ps[9..];
    assert Concat(ps[8..]) == a8 + (a9 + a10);
    assert ps[7..][1..] == ps[8..];
    assert Concat(ps[7..]) == a7 + (a8 + (a9 + a10));
    assert ps[6..][1..] == ps[7..];
    assert Concat(ps[6..]) == a6 + (a7 + (a8 + (a9 + a10)));
    assert ps[5..][1..] == ps[6..];
    assert Concat(ps[5..]) == a5 + (a6 + (a7 + (a8 + (a9 + a10))));
    assert ps[4..][1..] == ps[5..];
    assert Concat(ps[4..]) == a4 + (a5 + (a6 + (a7 + (a8 + (a9 + a10)))));
    assert ps[3..][1..] == ps[4..];
    assert Concat(ps[3..]) == a3 + (a4 + (a5 + (a6 + (a7 + (a8 + (a9 + a10))))));
    assert ps[2..][1..] == ps[3..];
    assert Concat(ps[2..]) == a2 + (a3 + (a4 + (a5 + (a6 + (a7 + (a8 + (a9 + a10)))))));
    assert ps[1..][1..] == ps[2..];
    assert Concat(ps[1..]) == a1 + (a2 + (a3 + (a4 + (a5 + (a6 + (a7 + (a8 + (a9 + a10))))))));
  }

  function Min(a: nat, b: nat): nat {
    if a <= b then a else b
  }

  /** The strings of the list joined together, first to last. */
  function Concat(ss: seq<string>): string
    decreases |ss|
  {
    if ss == [] then "" else ss[0] + Concat(ss[1..])
  }

  /** The jobs that make it into the message: `jobs[:10]`. */
  function Shown(jobs: seq<Job>): (s: seq<Job>)
    ensures |s| == Min(|jobs|, Cap)
    ensures s <= jobs
  {
    jobs[..Min(|jobs|, Cap)]
  }

  /** The entries of the shown jobs, one per job, in order. */
  function Entries(jobs: seq<Job>): seq<string> {
    seq(|Shown(jobs)|, i requires 0 <= i < |Shown(jobs)| => Entry(jobs[i]))
  }

  /** The message text sent to the chat. */
  function Digest(jobs: seq<Job>): (m: string)
    ensures Header <= m
    ensures jobs == [] ==> m == Header
  {
    Header + Concat(Entries(jobs))
  }

  /** Appending one string at the end of the list appends it to the text. */
  lemma {:induction false} ConcatSnoc(ss: seq<string>, s: string)
    ensures Concat(ss + [s]) == Concat(ss) + s
    decreases |ss|
  {
    if ss != [] {
      assert (ss + [s])[1..] == ss[1..] + [s];
      ConcatSnoc(ss[1..], s);
    }
  }

  /** Concatenation splits at any point of the list. */
  lemma {:induction false} ConcatAppend(ss: seq<string>, tt: seq<string>)
    ensures Concat(ss + tt) == Concat(ss) + Concat(tt)
    decreases |ss|
  {
    if ss != [] {
      assert (ss + tt)[1..] == ss[1..] + tt;
      ConcatAppend(ss[1..], tt);
    } else {
      assert ss + tt == tt;
    }
  }

  /** The entries of the first i + 1 shown jobs are those of the first i,
      then the entry of job i. */
  lemma EntriesStep(jobs: seq<Job>, i: nat)
    requires i < |Shown(jobs)|
    ensures Concat(Entries(jobs)[..i + 1]) == Concat(Entries(jobs)[..i]) + Entry(jobs[i])
  {
    assert Entries(jobs)[..i + 1] == Entries(jobs)[..i] + [Entry(jobs[i])];
    ConcatSnoc(Entries(jobs)[..i], Entry(jobs[i]));
  }

  /** Below the cap, one more job adds exactly its entry at the end of the
      message; at the cap, further jobs change nothing. */
  lemma DigestAddJob(jobs: seq<Job>, j: Job)
    ensures |jobs| < Cap ==> Digest(jobs + [j]) == Digest(jobs) + Entry(j)
    ensures |jobs| >= Cap ==> Digest(jobs + [j]) == Digest(jobs)
  {
    if |jobs| < Cap {
      assert Entries(jobs + [j]) == Entries(jobs) + [Entry(j)];
      ConcatSnoc(Entries(jobs), Entry(j));
    } else {
      assert Entries(jobs + [j]) == Entries(jobs);
    }
  }

  /** Only the first ten jobs matter: whatever follows them is ignored. */
  lemma DigestIgnoresTail(jobs: seq<Job>, more: seq<Job>)
    requires |jobs| >= Cap
    ensures Digest(jobs + more) == Digest(jobs)
  {
    assert Entries(jobs + more) == Entries(jobs);
  }

  /** Every message opens with the header, and the message for a list is a
      prefix of the message for any longer list. */
  lemma DigestGrowsByPrefix(jobs: seq<Job>, more: seq<Job>)
    ensures Header <= Digest(jobs)
    ensures Digest(jobs) <= Digest(jobs + more)
  {
    var es, fs := Entries(jobs), Entries(jobs + more);
    assert fs == es + fs[|es|..];
    ConcatAppend(es, fs[|es|..]);
  }

  /** The k-th shown job's entry appears in the message right after the
      entries of the jobs before it. */
  lemma EntryPlacement(jobs: seq<Job>, k: nat)
    requires k < Min(|jobs|, Cap)
    ensures Digest(jobs[..k]) + Entry(jobs[k]) <= Digest(jobs)
  {
    assert jobs[..k + 1] == jobs[..k] + [jobs[k]];
    DigestAddJob(jobs[..k], jobs[k]);
    assert jobs == jobs[..k + 1] + jobs[k + 1..];
    DigestGrowsByPrefix(jobs[..k + 1], jobs[k + 1..]);
  }

  /** The message `send_telegram` builds: the header, then `+=` of one entry
      per job of `jobs[:10]`. */
  method BuildMessage(jobs: seq<Job>) returns (message: string)
    ensures message == Digest(jobs)
  {
    message := Header;
    var shown := if |jobs| <= Cap then jobs else jobs[..Cap];
    var i := 0;
    while i < |shown|
      invariant 0 <= i <= |shown| == |Entries(jobs)|
      invariant shown == Shown(jobs)
      invariant message == Header + Concat(Entries(jobs)[..i])
    {
      EntriesStep(jobs, i);
      message := message + Entry(shown[i]);
      i := i + 1;
    }
    assert Entries(jobs)[..i] == Entries(jobs);
  }
}
