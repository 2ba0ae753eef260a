# Job-search assistant core, modelled in Dafny

This project models the in-memory logic of a job-search assistant written in
Python. The assistant scrapes job postings, counts the skills they ask for,
tracks postings seen before, keeps a record of applications and drafts cover
letters. Five parts are modelled:

- **Snapshot comparison and history** (`compare_jobs.py`).
  - A posting's signature: its URL, or else `title_company_source`.
  - The postings added and removed between two snapshots, computed as set differences of signatures.
  - The history of snapshots, capped at the 30 newest.
  - The first-run rule of `get_new_jobs`.
- **Skill counting** (`analyzer.py`).
  - A `collections.Counter` is modelled with its insertion order.
  - A technical skill is counted once per posting when one of its three spellings occurs as a whole word.
  - A synonym group is counted once per posting under `name.title()` when one of its keywords occurs as a substring.
  - `most_common`, the skills gap, the statistics and the report fields.
- **Application records** (`application_manager.py`). A class over the list of applications:
  - the duplicate guard, and its gap for empty URLs;
  - in-place updates of the first matching record;
  - deletion, filtering by status and the per-status counts.
- **Tracked postings** (`tracker.py`).
  - URL-based novelty filter, keyword search, and the two date filters.
  - Date parsing is a function parameter.
- **Cover-letter decisions** (`cover_letter_generator.py`).
  - Skill and business-keyword extraction, template choice and the key-skills phrase.
  - The contact block and when it is appended to a generated letter.
  - The company-sentence fallback and the sanitised file name.

## How things are modelled

- Modules: `Wrappers` (Option), `Seqs` (generic filter and count), `Text` (Python string operations), `Jobs` and `Config`, then one module per source file. Counting rests on `Counters`; `Vocabulary` and `AnalyzerCounts` hold the skill vocabularies and what the counts mean.
- A posting is a JSON object whose keys may be absent. `Job` has `Option` fields, and `x.GetOr(d)` is `job.get(key, d)`.
- Objects whose fields the source updates become classes: `SkillsAnalyzer`, `ApplicationManager`, `JobTracker` and `JobStore`, the files `get_new_jobs` reads and writes. Writing a file is modelled as a `saves` counter, or as the field that holds the file's contents.
- The loops of the source become methods with loops, proved against specification functions: `AnalyzeJobs`, `CountTechnicalSkills`, `CountSynonymGroups`, `CountSkill`, `CountGroup`, `GetSkillsGap`, `ApplicationManager.GetStatistics`, `MarkAsSent`, `UpdateApplicationStatus`, `UpdateNotes`, `GetRecentJobs` and `CollectSkills`.
- Each of these parameters stands for something the model cannot compute. When a clock value is needed, `now` stands for it. `cutoff` is the instant `days` before now. `parse` stands for `datetime.fromisoformat`. `letterPath` is the outcome of generating and saving a letter. `pick` stands for `abs(hash(company))`.
- Python's set iteration order is unspecified. The listing over a set in `compare_jobs` therefore picks signatures with `:|`, and its contract holds for every order.
- `str.lower()`, `str.title()`, `\w`, `\s` and `\b` are modelled over ASCII and Latin-1. `\w` includes the superscript digits and the vulgar fractions, because `str.isalnum()` accepts them.
- `config.YOUR_SKILLS` and `config.YOUR_NAME` are read from the environment. They are parameters: `yourSkills` of `KeySkills` and `GenerateReport`, and `yourName` of `NameOf` and `WithContact`. `Config` holds their default values.

## Model

| member | source | states |
|---|---|---|
| CompareJobs.Signature | compare_jobs.py:11-16 | a non-empty url is the signature itself |
| CompareJobs.UrlSignatureIgnoresOtherFields | compare_jobs.py:14-15 | two postings with the same non-empty url have the same signature whatever their other fields |
| CompareJobs.FallbackSignature | compare_jobs.py:16 | without a url the signature is title, company and source joined by "_", absent fields read as ""; equal fields give equal signatures |
| CompareJobs.UrlAndFallbackCanCollide | compare_jobs.py:14-16 | a url "a_b_c" and a url-less posting ("a", "b", "c") share a signature |
| CompareJobs.IndexKeys | compare_jobs.py:31-32 | the keys of the signature dict are exactly the signatures of the list |
| CompareJobs.IndexKeepsLast | compare_jobs.py:31-32 | each signature maps to a posting with that signature, the last one in the list |
| CompareJobs.ListBySignature | compare_jobs.py:36 | listing the dict under a set of signatures gives one posting per signature, exactly those signatures, each the dict's entry |
| CompareJobs.Compare | compare_jobs.py:19-42 | new = signatures only in the new list, removed = only in the old, one record each, the last with its signature; the two are disjoint; comparing a list with itself gives two empty lists |
| CompareJobs.Retained | compare_jobs.py:67-69 | the history keeps min(length, 30) entries, the newest ones, in order |
| CompareJobs.HistoryAppend | compare_jobs.py:59-69 | appending to a full history drops exactly the oldest entry; below the cap nothing is dropped; the new entry is last |
| CompareJobs.JobStore.SaveJobsHistory | compare_jobs.py:45-73 | the history becomes the retained old history plus one entry with the timestamp, len(jobs) and the jobs; its length is min(old + 1, 30) |
| CompareJobs.JobStore.GetNewJobs | compare_jobs.py:76-115 | no current file: ([], []) and nothing changes; first run: (current, current), current saved as previous; otherwise the new postings of the comparison and all current postings, previous replaced and one history entry saved |
| Analyzer.JobText | analyzer.py:30-35 | the searched text (title, description, full description, criteria, space-joined and lower-cased) has no upper-case letter |
| Analyzer.Variants | analyzer.py:40-44 | three spellings, the first the lower-cased skill, each as long as the skill |
| Analyzer.SkillHits | analyzer.py:38-49 | a technical skill is among the hits exactly when one of its spellings occurs as a whole word |
| Text.SuperscriptJoinsWord | analyzer.py:40-47 | a superscript digit continues a word, so "sql²" holds no whole-word "sql", while "sql 2" does |
| Analyzer.GroupHits | analyzer.py:79-83 | every matching group's title-cased key is a hit, and every hit is the key of a matching group |
| Analyzer.CountJobs | analyzer.py:18-22 | the counter built over a batch lists each key once, with a positive count |
| Analyzer.LowerAll | analyzer.py:92 | `your_skills_lower` lower-cases each skill, position by position |
| Analyzer.GapIsExactlyMissing | analyzer.py:94-97 | the gap holds the top entries whose lower-cased skill is not known, and all of them |
| Analyzer.SkillsAnalyzer.constructor | analyzer.py:10-12 | starts with an empty counter and no posting analysed |
| Analyzer.SkillsAnalyzer.AnalyzeJobs | analyzer.py:14-25 | previous counts are discarded, jobs_analyzed = len(jobs), and the counter is the count of the batch from empty |
| Analyzer.SkillsAnalyzer.ExtractSkillsFromJob | analyzer.py:27-83 | the counter rises by the matching technical skills, then by the keys of the matching groups |
| Analyzer.SkillsAnalyzer.CountTechnicalSkills | analyzer.py:38-49 | the first loop adds exactly the matching technical skills, in list order |
| Analyzer.SkillsAnalyzer.CountSynonymGroups | analyzer.py:79-83 | the second loop adds exactly the keys of the matching groups, in group order |
| Analyzer.SkillsAnalyzer.CountSkill | analyzer.py:46-49 | a skill is added once if some spelling matches as a word, not at all otherwise |
| Analyzer.SkillsAnalyzer.CountGroup | analyzer.py:80-83 | a group's key is added once if some keyword is a substring, not at all otherwise |
| Analyzer.SkillsAnalyzer.GetTopSkills | analyzer.py:85-87 | at most n entries, non-increasing counts, each a key with its current count |
| Analyzer.SkillsAnalyzer.GetSkillsGap | analyzer.py:89-99 | the top-30 entries, in order and with their counts, whose lower-cased skill is not among the lower-cased known skills |
| Analyzer.SkillsAnalyzer.GetStatistics | analyzer.py:118-132 | nothing when no skill was counted; otherwise total jobs, number of keys, sum of counts, and a most-demanded skill whose count is maximal and first inserted among equals |
| Analyzer.SkillsAnalyzer.GenerateReport | analyzer.py:101-116 | the report's jobs analysed, number of skills, top 30, gap against the given `YOUR_SKILLS` and all counts |
| Counters.Add | analyzer.py:48 | `counter[k] += 1` raises k by one, leaves every other key, appends k to the order when new |
| Counters.AddAllGet | analyzer.py:45-49 | after a run of increments each key has risen by its number of occurrences |
| Counters.Items | analyzer.py:110 | `dict(counter)`: each key with its count, in insertion order |
| Counters.SortByCount | analyzer.py:87 | the sort by decreasing count is a permutation of the items, with non-increasing counts |
| Counters.SortStable | analyzer.py:87 | the sort keeps the relative order of items with the same count |
| Counters.MostCommon | analyzer.py:87 | `most_common(n)`: min(n, keys) entries, non-increasing, each a key with its count |
| Counters.MostCommonIsTop | analyzer.py:87 | an entry left out of `most_common(n)` has a count no larger than any returned |
| Counters.MostCommonFirst | analyzer.py:131 | `most_common(1)[0]` has the largest count and is the first inserted key with it |
| Counters.TotalAddAll | analyzer.py:123 | a run of increments raises the sum of the counts by its length |
| AnalyzerCounts.GroupHitsExactly | analyzer.py:79-83 | with distinct keys, a group's key is counted once when the group matches, otherwise not |
| AnalyzerCounts.PerJobAtMostMultiplicity | analyzer.py:38-83 | one posting raises a key by (its listings as a skill, if it matches) + (its group hits), at most its listings in both vocabularies |
| AnalyzerCounts.CountJobsBound | analyzer.py:18-22 | over a batch each key rises at most its multiplicity per posting |
| AnalyzerCounts.SharedMultiplicity | analyzer.py:52-83 | when only "Kubernetes" is in both vocabularies, it may be counted twice per posting and every other key once |
| AnalyzerCounts.CountsBoundedByJobs | analyzer.py:18-83 | every count is at most jobs_analyzed, except "Kubernetes", which is at most twice that |
| AnalyzerCounts.SkillCountedOncePerJob | analyzer.py:45-49 | a technical skill other than "Kubernetes" adds exactly one per matching posting |
| AnalyzerCounts.KubernetesCountedTwice | analyzer.py:38-83 | a posting naming Kubernetes as a word raises "Kubernetes" by two |
| AnalyzerCounts.KubernetesReachesTwiceJobs | analyzer.py:18-83 | when every posting names Kubernetes, its count is exactly twice the batch size |
| AnalyzerCounts.SpellingVariantsMatch | analyzer.py:40-47 | "machine learning", "machine-learning" and "machine_learning" all match the skill "Machine Learning" |
| AnalyzerCounts.TotalIsMentions | analyzer.py:123 | `total_mentions` equals the number of increments made over the batch |
| Vocabulary.GroupKeysWrittenOut | analyzer.py:52-82 | `name.title()` of the 24 groups gives the keys written out ("Nosql", "A/B Testing", "Kubernetes", …) |
| Vocabulary.KeyNamesDistinct | analyzer.py:52-77 | the 24 group keys are distinct |
| Vocabulary.TechnicalDistinct | config.py:33-43 | the 25 technical skills are distinct |
| Vocabulary.VocabularyOverlap | config.py:40 | the configured vocabularies share exactly one key, "Kubernetes", and list it in both |
| Applications.FindApplication | application_manager.py:76-77 | the first record whose job_url equals the url, or -1 exactly when there is none |
| Applications.Applied | application_manager.py:68-72 | has_applied is false for an empty url, otherwise true exactly when some record is for the url |
| Applications.NewApplication | application_manager.py:44-56 | the record has job_url = url or "", status 'prepared', sent_at None, notes '' and the given time |
| Applications.MarkedSent | application_manager.py:78-79 | status becomes 'sent', sent_at the given value if truthy else now, nothing else changes |
| Applications.WithStatus | application_manager.py:88-92 | any status is accepted; sent_at is stamped only when becoming 'sent' without one; notes replaced only when given |
| Applications.StatusCounts | application_manager.py:125-128 | each status is counted as often as it occurs, and the counts sum to the number of records |
| Applications.ApplicationManager.constructor | application_manager.py:12-21 | starts from the loaded records |
| Applications.ApplicationManager.PrepareApplication | application_manager.py:27-66 | already applied (or a failed letter): None and nothing changes; otherwise exactly one new record appended at the end and saved |
| Applications.ApplicationManager.MarkAsSent | application_manager.py:74-82 | only the first matching record changes, to the sent record; no match: false and nothing changes |
| Applications.ApplicationManager.UpdateApplicationStatus | application_manager.py:84-95 | only the first matching record changes, with no transition check; no match: false and nothing changes |
| Applications.ApplicationManager.UpdateNotes | application_manager.py:97-104 | only the notes of the first matching record change; the result says whether there was one |
| Applications.ApplicationManager.DeleteApplication | application_manager.py:106-114 | keeps, in order, the records not for the url; true and saved exactly when the list shrank |
| Applications.ApplicationManager.GetApplicationsByStatus | application_manager.py:116-120 | the records with that status, in order, or all records for a falsy status |
| Applications.ApplicationManager.GetStatistics | application_manager.py:122-137 | total = number of records, per-status counts (missing status as 'prepared') summing to total, the four named counts defaulting to 0 |
| Applications.PrepareGuardsDuplicates | application_manager.py:68-72 | after a preparation the url counts as applied, unless it is empty, so empty-url postings can be prepared again |
| Applications.DeleteRemovesAll | application_manager.py:106-114 | the length falls exactly when a record was for the url; afterwards none is; every other record is kept |
| Applications.UpdateKeepsPosition | application_manager.py:84-95 | after a status update the same record is the first for the url |
| Tracker.TrackedUrls | tracker.py:30 | the url (default "") of every tracked posting, and nothing else |
| Tracker.Unseen | tracker.py:31-34 | the scraped postings whose url is not tracked, all of them, in scraped order |
| Tracker.Normalized | tracker.py:69 | no 'Z' is left in the text handed to the parser; a date without 'Z' is handed over unchanged |
| Tracker.TrailingZ | tracker.py:69 | a trailing 'Z' becomes the offset '+00:00' |
| Tracker.JobTracker.constructor | tracker.py:11-13 | starts from the loaded postings |
| Tracker.JobTracker.TrackNewJobs | tracker.py:22-43 | failed login: [] and nothing changes; otherwise the unseen postings, appended at the end and saved only when there is one |
| Tracker.JobTracker.GetJobsByKeyword | tracker.py:49-56 | the tracked postings, in order, whose lower-cased title or description contains the lower-cased keyword, and all of them |
| Tracker.JobTracker.GetRecentJobs | tracker.py:58-76 | the tracked postings, in order, that are dated and whose date does not parse, carries an offset, or is not before the cutoff |
| Tracker.JobTracker.ClearOldJobs | tracker.py:82-98 | keeps, in order, the postings `_is_job_recent` accepts; returns how many were dropped; saves only if some were |
| Tracker.TrackingIsIdempotent | tracker.py:30-41 | tracking the same batch a second time finds nothing new |
| Tracker.BatchDuplicatesKept | tracker.py:31-34 | two copies of an untracked posting in one batch are both returned |
| Tracker.UrllessDropped | tracker.py:30-34 | once a tracked posting lacks a url, every url-less scraped posting is dropped |
| Tracker.RecentVersusKept | tracker.py:64-76 | the recent list and the retention test differ only on undated postings, which the list leaves out and retention keeps |
| Tracker.ClearedOnlyWhenDatedBefore | tracker.py:100-110 | a posting is cleared exactly when its date parses, carries no offset and is before the cutoff |
| CoverLetter.SkillsMentionedConcat | cover_letter_generator.py:139-142 | skills are found in list order: an earlier part of the list comes first |
| CoverLetter.SkillsMentionedOne | cover_letter_generator.py:141-142 | a skill is found exactly when its lower-cased name occurs in the text |
| CoverLetter.CollectSkills | cover_letter_generator.py:139-142 | the loop collects exactly the skills mentioned, in list order |
| CoverLetter.BusinessKeywords | cover_letter_generator.py:145-153 | at most four keywords, in the fixed rule order, none repeated |
| CoverLetter.BusinessKeywordRules | cover_letter_generator.py:146-153 | each keyword is present exactly when its rule's substrings occur |
| CoverLetter.HtmlCountsAsMachineLearning | cover_letter_generator.py:148-149 | a text containing "html" gets 'Machine Learning' through the bare "ml" test |
| CoverLetter.CollectBusinessKeywords | cover_letter_generator.py:145-153 | the four tests, tried in order, give the business keywords |
| CoverLetter.ExtractKeywordsFromJob | cover_letter_generator.py:131-155 | the first five skills mentioned in lower-cased title + " " + description, and the business keywords of that text |
| CoverLetter.ExtractedSkills | cover_letter_generator.py:139-155 | at most five skills, each listed and found in the text; all of them when no more than five are found |
| CoverLetter.TemplateFor | cover_letter_generator.py:189-197 | analyst iff 'analyst'; engineer iff not analyst and 'engineer'/'ingénieur'; alternance iff neither and a work-study word |
| CoverLetter.DefaultTemplate | cover_letter_generator.py:190-197 | the data-scientist template is chosen exactly when none of the six title words occurs |
| CoverLetter.KeySkillsNamed | cover_letter_generator.py:201 | each of the first three skills found, or else of the first three own skills, is named in the phrase |
| CoverLetter.DefaultKeySkills | cover_letter_generator.py:201 | with no skill found, the phrase joins the three default skills |
| CoverLetter.ContactParts | cover_letter_generator.py:226-230 | the email line first even when empty, then the phone line and the address, each only when truthy |
| CoverLetter.BuildContactInfo | cover_letter_generator.py:224-231 | the contact block starts with the email |
| CoverLetter.ContactBlockLines | cover_letter_generator.py:224-231 | the email, the phone line and the address given are each in the block |
| CoverLetter.WithContact | cover_letter_generator.py:172-176 | the generated letter is kept as a prefix; only text is appended |
| CoverLetter.ContactImpliesEmail | cover_letter_generator.py:172-175 | a letter holding the contact block holds the email, so the inner test never fires |
| CoverLetter.WithContactAppendsWhenEmailMissing | cover_letter_generator.py:172-178 | the letter is unchanged exactly when it holds the email; otherwise name and block are appended; afterwards it holds the email |
| CoverLetter.WithContactIdempotent | cover_letter_generator.py:172-176 | appending the contact twice is the same as once |
| CoverLetter.Reasons | cover_letter_generator.py:257-262 | four reasons |
| CoverLetter.WhyCompany | cover_letter_generator.py:251-269 | the fallback sentence exactly for an empty or 'N/A' company, otherwise one of the four reasons |
| CoverLetter.WhyCompanyNamesCompany | cover_letter_generator.py:253-268 | outside the fallback the sentence names the company; an absent company reads as 'votre entreprise' |
| CoverLetter.FilenameStem | cover_letter_generator.py:280-281 | at most 50 characters, each a word character, whitespace other than a space, or '-' |
| CoverLetter.FilenameStemFromKept | cover_letter_generator.py:280-281 | the stem is the title's kept characters in order, min(50, their number) of them, each space made '_' |
| CoverLetter.FilenameStemDropsUnkept | cover_letter_generator.py:280 | a character other than a word character, whitespace or '-' is removed without trace |
| CoverLetter.FilenameStemOfPlainTitle | cover_letter_generator.py:280-281 | a title of at most 50 kept characters comes back whole, each space made '_' |
| CoverLetter.StemIsPlainName | cover_letter_generator.py:280 | the stem contains no '/', '\' or '.' |
| CoverLetter.FilenameStemIdempotent | cover_letter_generator.py:280-281 | sanitising a stem again changes nothing |

## Left out

- File and network I/O: loading and writing the JSON files, the Selenium scrapers, the LLM generator, printing. A save is counted (`saves`) or is the field that holds the file.
- TrackNewJobs: lines 15-27 of `track_new_jobs` (browser set-up, login and search) are replaced by the parameter `scraped`, `None` when the login failed.
- `get_tracked_jobs` is a plain field read and is not modelled.
- GetStatistics (analyzer): `avg_mentions_per_job` and its rounding (floating point) are not modelled.
- GenerateReport: the report is not written to a file.
- PrepareApplication: generating and saving the letter are not modelled; `letterPath` is their outcome, and `None` stands for an exception caught by the `except` clause.
- WhyCompany: which reason is used depends on `abs(hash(company))`, which Python randomises per process; it is the parameter `pick`.
- `_generate_default_intro`, the letter templates and their formatting are prose and are not modelled.
- ExtractKeywordsFromJob: `config.TECHNICAL_SKILLS` is a parameter here; `Config` holds its value.
- BusinessKeywords: the keywords are a datatype, `Label` gives the strings the source appends.
- SurvivesCutoff: `datetime.fromisoformat` is the parameter `parse`. An offset-aware date compared with the naive cutoff raises `TypeError`, which the bare `except` catches; the model records this with `hasOffset`.
- JSON `null` values are not modelled: an `Option` field is either absent or a string.
- Lower, Title, IsWordChar and IsSpaceChar cover ASCII and Latin-1 only, not all of Unicode.
- Title: Python title-cases 'ß' to the two letters "Ss"; the model keeps 'ß', because its `Title` keeps the length. It is only applied to the ASCII group names.
- `re.IGNORECASE` in the skill search is not modelled. Inside Latin-1 it has no effect on the lower-cased text and spellings. Outside Latin-1 it does: a spelling with 's' would also match 'ſ' (U+017F).
- CompareJobs.JobStore.GetNewJobs: the history file path and the optional `filename` argument of `save_jobs_history` (unused by the code) are not modelled.
