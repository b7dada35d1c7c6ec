# Naukri job fetcher — a Dafny model of its filtering and notification core

The script `fetch_naukri_jobs.py` reads a page of job cards from a job-search
site. It keeps the cards whose location mentions one of four configured places
(Remote, Bengaluru, Hyderabad, India), ignoring letter case. When at least one
job is kept, it writes `jobs.csv`, mails that file, and posts a Markdown digest
of the first ten jobs to a Telegram chat. When no job is kept, it only prints
a notice.

This project models the logic between the I/O calls:

- `text.dfy` (module `Text`): lower-casing (`str.lower`, ASCII letters only)
  and the substring test `needle in hay`.
- `jobs.dfy` (module `Jobs`): job cards and their five looked-up sub-elements.
  The file also holds the location filter and the collection loop of
  `fetch_jobs`, as the method `FetchJobs`. That method is proved equal to the
  specification function `Collect`.
- `csv.dfy` (module `Csv`): the record dictionaries and how the CSV writer
  lays out their values under the header `Title, Company, Location, Posted, Link`.
- `telegram.dfy` (module `Telegram`): the chat message, built by the method
  `BuildMessage` and specified by `Digest`. It is a fixed header followed by
  one entry for each of the first ten jobs.
- `pipeline.dfy` (module `Pipeline`): the `World` class stands for everything
  the script changes. That is the file `jobs.csv`, the emails and chat
  messages sent, and the printed lines. `World.Run` is the `__main__` block.

A job card is modelled as the five values its selector lookups produce.
Each value is `None` when the lookup finds nothing. The collection loop
stops at the first missing value and raises. This happens before the location
test, so a card with a missing value ends the whole collection even when its
location would not match. The model returns `Err(MissingElement(card, field))`
for this case.

Two consequences of the code that the model keeps:

- A missing sub-element raises (AttributeError at fetch_naukri_jobs.py:34-37,
  TypeError or KeyError at line 38) and ends the run; it never becomes an
  empty field.
- `send_telegram` sends one digest message per run, not one message per job.

## Model

| member | source | states |
|---|---|---|
| `Text.Lower` | fetch_naukri_jobs.py:40 | `lower()` keeps the length, leaves no upper-case ASCII letter, maps each upper-case letter to its lower-case partner and keeps every other character |
| `Text.Contains` | fetch_naukri_jobs.py:40 | a needle that is a prefix of the hay is in the hay, and a needle in the hay is never longer than the hay |
| `Text.ContainsIff` | fetch_naukri_jobs.py:40 | the substring test `needle in hay` holds exactly when the needle occurs in the hay at some offset |
| `Jobs.AnyTermInIff` | fetch_naukri_jobs.py:40 | a location passes the filter if and only if some configured term, lower-cased, occurs in the lower-cased location |
| `Jobs.MatchIgnoresCase` | fetch_naukri_jobs.py:40 | the filter gives the same answer for a location and for its lower-cased form |
| `Jobs.AnyTermIn` | fetch_naukri_jobs.py:40 | `any(loc.lower() in job_location.lower() for loc in FILTERS["location"])` holds exactly when some term, lower-cased, is in the lower-cased location |
| `Jobs.CapitalLocationMatches` | fetch_naukri_jobs.py:40 | the location "BENGALURU, India" passes a filter whose only term is "Bengaluru" |
| `Jobs.OtherCityDropped` | fetch_naukri_jobs.py:17-40 | the location "Pune" matches none of the configured terms |
| `Jobs.EmptyLocationNeverMatches` | fetch_naukri_jobs.py:40 | if no configured term is empty, the empty location matches no term |
| `Jobs.NoEmptyLocationCollected` | fetch_naukri_jobs.py:17-47 | with the configured terms, no collected job has an empty location |
| `Jobs.Extract` | fetch_naukri_jobs.py:34-38 | a card yields a job exactly when all five lookups succeed, and then each job field equals the value looked up; otherwise it names a lookup that failed, and every lookup before it in the order title, company, location, posted, link succeeded |
| `Jobs.Collect` | fetch_naukri_jobs.py:32-49 | a successful collection has at most one job per card; a failure names the position of a card in the list |
| `Jobs.CollectErrPersists` | fetch_naukri_jobs.py:33-38 | once a lookup fails on some card, the result is that failure whatever cards come after |
| `Jobs.CollectFailsAtFirstIncompleteCard` | fetch_naukri_jobs.py:33-40 | collection succeeds if and only if every card has all five sub-elements; a failure names the first incomplete card and its first missing lookup, whether or not its location matches |
| `Jobs.KeptPositionsAreTheMatches` | fetch_naukri_jobs.py:33-40 | the kept positions are strictly increasing, lie within the card list, and are exactly the positions whose card location passes the filter |
| `Jobs.CollectSelectsKeptCards` | fetch_naukri_jobs.py:40-47 | a successful collection is the filtered subsequence in document order: its k-th job is the record of the card at the k-th kept position |
| `Jobs.CollectedJobsMatch` | fetch_naukri_jobs.py:40-41 | every collected job's location matches some configured term |
| `Jobs.FetchJobs` | fetch_naukri_jobs.py:32-49 | the collection loop returns exactly `Collect` of the cards with the configured terms |
| `Csv.Record` | fetch_naukri_jobs.py:41-47 | a record's keys are exactly Title, Company, Location, Posted and Link, and each key holds the matching field of the job |
| `Csv.DictRow` | fetch_naukri_jobs.py:53-56 | a written row has one value per field name in field-name order, the record's value where it has the key and the empty string where it has not |
| `Csv.Table` | fetch_naukri_jobs.py:53-56 | the file has exactly one row more than there are jobs, the first row is the header of field names, and every row has one value per field name |
| `Csv.RowLayout` | fetch_naukri_jobs.py:53-56 | the row written for a job is its title, company, location, posted time and link, in that order |
| `Csv.TableLayout` | fetch_naukri_jobs.py:53-56 | the file is the header `Title, Company, Location, Posted, Link` followed by exactly one row per job, in list order, with the job's fields in header order |
| `Telegram.Shown` | fetch_naukri_jobs.py:82 | the jobs in the message are the first `min(len(jobs), 10)` of the list |
| `Telegram.Entry` | fetch_naukri_jobs.py:83 | the entry for a job is its five fields plus the template's 21 characters, and it starts and ends with a line break |
| `Telegram.Digest` | fetch_naukri_jobs.py:80-83 | the message always starts with the fixed header, and with no jobs it is the header alone |
| `Telegram.DigestAddJob` | fetch_naukri_jobs.py:82-83 | below ten jobs, one more job appends exactly its entry `\n[Title](Link) - Company (Location)\nPosted: Posted\n` to the message; from ten on, more jobs change nothing |
| `Telegram.DigestIgnoresTail` | fetch_naukri_jobs.py:82 | with ten or more jobs, the jobs after the first ten do not affect the message |
| `Telegram.DigestGrowsByPrefix` | fetch_naukri_jobs.py:80-83 | every message starts with the fixed header, and the message for a list is a prefix of the message for any extension of the list |
| `Telegram.EntryPlacement` | fetch_naukri_jobs.py:82-83 | the k-th of the shown jobs has its entry in the message directly after the entries of the jobs before it |
| `Telegram.BuildMessage` | fetch_naukri_jobs.py:80-83 | the message built by the `+=` loop is exactly `Digest(jobs)` |
| `Pipeline.World.SaveToCsv` | fetch_naukri_jobs.py:51-56 | afterwards `jobs.csv` holds exactly `Table(jobs)`, whatever it held before, and nothing is sent or printed |
| `Pipeline.World.SendEmail` | fetch_naukri_jobs.py:58-75 | if `jobs.csv` exists, exactly one email is sent with the fixed subject and the file attached under its own name; if it does not exist, nothing is sent |
| `Pipeline.World.SendTelegram` | fetch_naukri_jobs.py:77-85 | exactly one chat message is sent, whatever the number of jobs, and its text is `Digest(jobs)` |
| `Pipeline.World.Run` | fetch_naukri_jobs.py:87-94 | a failed collection ends the run with that error and nothing written, sent or printed; an empty collection only prints the notice and leaves the file and the outbox alone; otherwise the file becomes the table, then one email with that table is sent, then one chat message with the digest, and nothing is printed |

## Left out

- The HTTP request, the URL and its query constants, and the request headers are not modelled. This is network I/O. The cards arrive as a parameter instead.
- HTML parsing and the CSS selectors are not modelled. A card is already the result of its five lookups: title, company, location and posted are the `get_text(strip=True)` text of their elements, and the link is the raw, unstripped `href` attribute of the `a.title.fw500` anchor, a different selector from the title's `.title.fw500`.
- Text.Lower: only ASCII letters are lower-cased. Python's `str.lower` lower-cases all of Unicode, so for non-ASCII locations the model can disagree with the program.
- CSV quoting, line endings, encoding and the file open itself are not modelled. The file is modelled as its rows of fields.
- Email composition (MIME, base64) and the SMTP session are not modelled. Login or transport failures are left out. An email is modelled as its subject, attachment name and attachment rows.
- The Telegram bot object, the Markdown parse mode and the network call are not modelled. A chat message is modelled as its text. A failing send is left out.
- Environment-variable lookups are not modelled. In the program, a missing variable raises at its point of use, after `jobs.csv` has been written.
- The unused settings `keywords`, `experience`, `posted_within_hours` and `job_type` are not modelled. The filter never reads them, and `datetime` is never used.
