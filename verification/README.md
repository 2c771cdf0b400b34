# vector-cv core in Dafny

A model of the back end of vector-cv, a CV and cover-letter generator that keeps a
candidate's career as "experience blocks" in a PostgreSQL table with vector
embeddings, and assembles a tailored application for a job description. The
model covers:

- the tables and their column defaults (`Models`);
- the hybrid block-selection engine, six stages that build a result list and a set
  of selected ids (`Selection`);
- the write endpoints of the API as a `Database` class (`Store`);
- the fallback embedding and the cover-letter chunk truncation (`LlmService`);
- the inline `**bold**` segmenter and the CV line classifier (`Docx`), the
  cover-letter line classifier (`CoverLetter`), and the download file names
  (`Filenames`);
- the seeding script (`Seed`), the one-off column migration (`Migration`) and the
  health-check script (`Health`).

Supporting modules: `Wrappers` (Option and Result) and `Text` (Python string
operations on `seq<char>`: `in`, `startswith`, `strip`, `lower`, `split`, `join`,
`replace`).

Modelling choices:

- A table is a `seq<Block>` in store order. A query without ORDER BY returns rows
  in that order, and `.first()` takes the first such row.
- UUID primary keys are natural numbers drawn from a counter (`nextId`).
- The job's skills, the job embedding, the cosine distance, SHA-256 and the LLM's
  answers are parameters of the operations that use them. A NULL embedding sorts
  after every present distance, as PostgreSQL's ascending order puts NULLs last.
  Ties in distance keep store order.
- Time is an integer `createdAt`. "Most recent employment" is the largest
  `createdAt`, with ties going to the first row in store order.
- `str.lower()` is ASCII lower-casing; `str.strip()` uses Python's whitespace set.
- The seeding session is opened with autoflush off (database.py:20). So the title
  lookup in `seed_experience_blocks` sees only rows committed before the call, and
  blocks added earlier in the same call stay invisible to it
  (`Seed.DuplicateNewTitlesBothInserted`).
- In the CV classifier, any line holding `|` is a contact line unless an earlier
  branch took it. So the table branch (docx_generator.py:92-101) and the `|`
  alternative of the project-header test (docx_generator.py:84) can never run.
  `Docx.ClassifyCvLine` states this, and `Docx.ProjectHeaderHasDash` shows it.
- A section heading that cleans to nothing (`## 🔹`) is added with no run, and
  `p.runs[0]` (docx_generator.py:69) then raises IndexError. The CV conversion is
  therefore partial: `Docx.CvDocument` is None exactly when some line raises.
- An INSERT leaves out a None attribute whose column has a default, so a block
  inserted with a null priority stores "3" (`Models.InsertedPriority`). An UPDATE
  writes the NULL.

## Model

| member | source | states |
|---|---|---|
| Models.StatusValue | models.py:11-17 | each application status's stored value parses back to that status |
| Models.BlockTypeValue | models.py:19-24 | each block type's stored value parses back to that type |
| Models.EnumerationsClosed | models.py:11-24 | a string parses as a block type (status) exactly when it is the value of one of the 5 (6) declared members |
| Models.DefaultBlock | models.py:29-37 | a block inserted with only its required columns is a supporting project with priority "3", no company, tags or embedding |
| Models.InsertedPriority | models.py:35 | an INSERT always stores a priority: the given one, or the column default "3" when it is null |
| Models.DefaultApplication | models.py:68-77 | a new application defaults to status Draft with no date, notes or documents |
| Models.Filter | main.py:125-127 | a filtered query returns exactly the rows of the table that satisfy the filter, never more rows than the table |
| Models.FilterConcat | main.py:125-127 | a filtered query keeps table order: filtering a + b gives the rows of a, then the rows of b |
| Models.FilterFirst | main.py:125-127 | the first row of a filtered query is the first row of the table that satisfies the filter |
| Models.FilterUnique | models.py:29 | a filtered query over a table with unique primary keys has unique keys |
| Selection.FirstOfType | main.py:135-137 | `.first()` of a type is present iff the table holds a block of that type, and is a block of that type |
| Selection.FirstOfTypeIsFirst | main.py:135-137 | `.first()` returns the block of that type with no block of that type before it in store order |
| Selection.OfTypeConcat | main.py:125-127 | the blocks of one type keep store order: those of a + b are those of a, then those of b |
| Selection.LatestOfType | main.py:179-181 | the employment query is present iff an employment block exists, and no block of that type was created later |
| Selection.AnyTagContainsExists | main.py:154-156 | the `any(...)` tag test holds iff some tag, lower-cased, contains the lower-cased skill |
| Selection.FirstMatch | main.py:153-160 | the inner loop finds a matching candidate iff one exists, and what it finds matches |
| Selection.FirstMatchIsFirst | main.py:153-160 | what the inner loop finds is preceded by no matching candidate: `break` stops at the first match |
| Selection.SkillStageFacts | main.py:144-162 | stage 3 adds only unseen supporting or pillar projects of the table, each matching one of the skills, never the same id twice |
| Selection.ArgMinLeast | main.py:169-171 | the chosen candidate has the least distance key, and no earlier candidate's key is as small |
| Selection.NearestKSorted | main.py:169-171 | `order_by(distance).limit(k)` returns candidates in non-decreasing distance |
| Selection.NearestKTop | main.py:169-171 | no candidate left out is nearer than one returned: the result is a top-k |
| Selection.NearestKUnique | main.py:165-176 | the nearest candidates have unique ids when the candidates do |
| Selection.RemoveAtUnique | main.py:267 | removing one row keeps the ids unique and drops that row's id |
| Selection.Unseen | main.py:183-195 | a found block is appended iff it exists and its id is not selected yet |
| Selection.SelectRelevantBlocks | main.py:103-198 | the stage-by-stage imperative selection returns exactly the specification `Selected` |
| Selection.AddMandatory | main.py:124-142 | stages 1 and 2 append every pillar, then the first skills summary, and record their ids |
| Selection.MatchSkills | main.py:144-162 | the per-skill loop adds exactly what stage 3 specifies and records the ids |
| Selection.ScanForSkill | main.py:153-160 | the loop with `break` yields the first matching block of the query: it matches and no earlier block does |
| Selection.AddNearest | main.py:165-176 | stage 4 appends the three nearest unseen supporting projects and records their ids |
| Selection.AddEmploymentAndEducation | main.py:178-195 | stages 5 and 6 append the latest employment and then the first education block, each only when not selected yet |
| Selection.PillarsFirst | main.py:124-132 | every pillar project is selected, and the pillars open the result in store order |
| Selection.SummaryFollowsPillars | main.py:134-142 | the first skills summary, if any, comes right after the pillars |
| Selection.MandatoryLeads | main.py:124-142 | the result starts with stages 1 and 2 |
| Selection.SelectionUnique | main.py:121-195 | over a table with unique ids, no block id appears twice in the result |
| Selection.SkillStageBounded | main.py:144-162 | stage 3 adds at most one block per skill, only unseen supporting projects whose tags match a skill |
| Selection.NearestStage | main.py:165-176 | stage 4 adds at most 3 unseen supporting projects in non-decreasing distance, and none left out is nearer |
| Selection.EmploymentIncluded | main.py:178-186 | the most recent employment block is always in the result |
| Selection.EducationIncluded | main.py:188-195 | the first education block is always in the result |
| Selection.FrontHasNoEmploymentOrEducation | main.py:124-176 | stages 1 to 4 select only stored blocks that are neither employment nor education |
| Selection.SelectionBounded | main.py:103-198 | the result holds at most #pillars + 1 + #skills + 3 + 1 + 1 blocks |
| Selection.EmptyStoreEmptySelection | main.py:103-198 | an empty table yields an empty selection |
| Store.DefaultBlockRequest | main.py:23-29 | a request body without type or priority carries "supporting_project" and "3" |
| Store.ConvertBlockType | main.py:242 | a missing or empty type means supporting project; any other value converts iff it is one of the five stored values, and then to that type |
| Store.FindById | main.py:264 | the lookup by id fails iff no row has the id, and otherwise points at a row with it |
| Store.ToChunks | main.py:285-293 | one chunk per selected block, carrying its title, company, content and tags (missing tags as the empty list) |
| Store.ApplicationFor | main.py:273-332 | 400 without personal info, else 400 for an empty selection, else a draft application holding the request fields and the three generated documents |
| Store.ComposeApplication | main.py:273-325 | the checks and the generation steps, personal info first and selection second, give exactly `ApplicationFor` of the selection |
| Store.Database.constructor | models.py:26-80 | an empty database satisfies the key invariants |
| Store.Database.CreatePersonalInfo | main.py:213-227 | overwrite the single row, keeping its id, or insert it; never more than one row |
| Store.Database.CreateExperienceBlock | main.py:237-256 | an unknown type is a 500 that adds nothing; otherwise exactly one block with a fresh id and the request's fields is appended, a null priority stored as "3" |
| Store.Database.DeleteExperienceBlock | main.py:262-269 | an unknown id is a 404 that removes nothing; otherwise exactly the block with that id is removed and the others keep their order |
| Store.Database.CreateJobApplication | main.py:273-332 | the result is `ApplicationFor` the selection over the stored blocks; exactly one application is stored on success and none on error |
| LlmService.EncodeChar | llm_service.py:23 | one character's UTF-8 encoding is 1 to 4 bytes, ASCII as itself, longer forms with a lead byte and continuation bytes |
| LlmService.Utf8Encode | llm_service.py:23 | the encoding of a text is between 1 and 4 bytes per character |
| LlmService.Utf8Ascii | llm_service.py:23 | an ASCII text encodes to its own code points |
| LlmService.ByteToUnit | llm_service.py:27 | `(b / 255) * 2 - 1` lies in [-1, 1], with 0 giving -1 and 255 giving 1 |
| LlmService.ByteToUnitInjective | llm_service.py:27 | different bytes give different values |
| LlmService.FallbackEmbedding | llm_service.py:20-28 | the loop builds 1024 entries, entry i from byte i mod 32 of the digest of the UTF-8 text |
| LlmService.FallbackInRange | llm_service.py:27 | every fallback entry lies in [-1, 1] |
| LlmService.FallbackPeriodic | llm_service.py:26-27 | entries i and i + 32 are equal |
| LlmService.FallbackDeterminedByDigest | llm_service.py:22-28 | two texts get the same fallback vector iff their digests agree, so one text always gets one vector |
| LlmService.GenerateEmbedding | llm_service.py:11-28 | the service's answer when there is one, else the fallback vector; always 1024 entries |
| LlmService.CoverLetterChunks | llm_service.py:242 | `relevant_chunks[:3]` keeps the first min(3, n) chunks unchanged |
| LlmService.CoverLetterIgnoresRest | llm_service.py:240-243 | chunks after the third cannot change the cover-letter prompt's project text |
| Docx.FindBold | docx_generator.py:126 | `find('**', start)` reports a marker at or after start |
| Docx.FindBoldFirstMarker | docx_generator.py:126-127 | no marker lies between start and the one reported, and none at all when -1 |
| Docx.Flush | docx_generator.py:122-124 | a pending plain run becomes a segment only when non-empty |
| Docx.ParseInlineFormatting | docx_generator.py:113-138 | the while loop with its `current` accumulator returns exactly the specification `Parse` |
| Docx.RenderConcat | docx_generator.py:140-149 | a paragraph's text is the texts of its segments in order |
| Docx.ParseLength | docx_generator.py:119-136 | the segments' text is the input minus exactly four characters per bold segment |
| Docx.UnparseConcat | docx_generator.py:113-138 | writing segments back as markdown works segment by segment, in order |
| Docx.ParseFromRoundTrip | docx_generator.py:119-136 | from any index, the segments written back as markdown are the pending run followed by the rest of the text |
| Docx.ParseRoundTrip | docx_generator.py:113-138 | segmenting loses nothing: bold text wrapped in `**` again and plain text as is give back the input, unclosed markers included |
| Docx.ParseSegmentsWellFormed | docx_generator.py:122-136 | no plain segment is empty, and no bold segment contains a marker |
| Docx.ParseWithoutMarkers | docx_generator.py:119-136 | text without `**` gathers into the pending run |
| Docx.PlainText | docx_generator.py:113-138 | text without `**` gives no segment when empty, else one plain segment equal to the text |
| Docx.ParseAtClosedPair | docx_generator.py:121-130 | at a marker with a closing one, the pending run is flushed and exactly the text between becomes bold |
| Docx.BoldPair | docx_generator.py:121-136 | `before**inner**after` segments into before, bold inner and after |
| Docx.ClassifyCvLine | docx_generator.py:28-105 | for each kind, the line has it iff that branch's test holds and every earlier test fails (simplified where the prefixes exclude one another); the table branch is never taken |
| Docx.ProjectHeaderHasDash | docx_generator.py:53-84 | a project header never holds `|`: its `|` alternative is dead |
| Docx.Unwrap | docx_generator.py:44 | `s[2:-2]` drops two characters from each end, and is empty when they overlap |
| Docx.CleanContact | docx_generator.py:53-58 | a cleaned contact line holds no `|` and no contact emoji |
| Docx.CleanSection | docx_generator.py:64-66 | a cleaned heading holds no diamond |
| Docx.CvLineParagraphs | docx_generator.py:26-105 | a line raises iff it is a section heading that cleans to "" (`p.runs[0]` of a heading with no run); otherwise it adds nothing iff blank, at most two paragraphs, a section adds a spacer and its cleaned heading, and bullet, header and regular lines are segmented |
| Docx.EmptySectionRaises | docx_generator.py:64-69 | the line `## 🔹` cleans to an empty heading and raises |
| Docx.RuleIsSpacer | docx_generator.py:72-73 | `---` adds only a spacer |
| Docx.ParseMarkdownToDocx | docx_generator.py:11-111 | the line loop yields no document iff some split line raises, and otherwise exactly each line's paragraphs, in order |
| Docx.CvDocument | docx_generator.py:11-111 | the whole conversion raises iff some stripped line raises, and otherwise adds at most two paragraphs per line |
| Docx.RaisingLineStops | docx_generator.py:25-69 | a raising line anywhere in the text means no document |
| Docx.CvDocumentAppend | docx_generator.py:26-73 | a whitespace-only line adds nothing, and a rule line adds one spacer (when no earlier line raised) |
| CoverLetter.ClassifyCoverLine | docx_generator.py:180-214 | for each kind, the line has it iff that branch's test holds and every earlier test fails: addressing iff "**To:**"/"**Subject:**", greeting iff "Dear ", closing iff one of the three exact strings, contact iff "+27" or "@" and no earlier prefix, regular otherwise |
| CoverLetter.CoverLineParagraphs | docx_generator.py:180-214 | a line adds nothing iff blank or a "# " header; a greeting or closing adds a spacer and then itself; a contact line is emitted verbatim; addressing and regular lines are segmented |
| CoverLetter.ClosingParagraphs | docx_generator.py:202-206 | each closing string adds a spacer and then itself |
| CoverLetter.GenerateCoverLetterDocx | docx_generator.py:162-218 | the line loop yields exactly each split line's paragraphs, in order |
| Filenames.Sanitize | docx_generator.py:155 | each space and each slash becomes `_` and every other character stays in place, so no space or slash is left |
| Filenames.SanitizeClean | docx_generator.py:155 | a name without spaces or slashes is left unchanged |
| Filenames.CvFilenameShape | docx_generator.py:155 | the CV file name is "CV_" + company + "_" + title + ".docx", with company and title sanitised |
| Filenames.CoverLetterFilenameShape | docx_generator.py:166 | the cover-letter file name is "CoverLetter_" + company + "_" + title + ".docx", with company and title sanitised |
| Seed.WithField | seed_data.py:31-32 | `setattr` sets the named column and keeps every other column |
| Seed.LastValue | seed_data.py:31-32 | the last value for a column is absent iff no pair names it |
| Seed.ApplyDataFieldwise | seed_data.py:29-32 | applying the data sets exactly the named columns, to their last value, and keeps the rest |
| Seed.SetAttributes | seed_data.py:31-32 | the setattr loop computes `ApplyData` |
| Seed.SeedPersonalInfo | seed_data.py:22-38 | an existing row is overwritten field by field, keeping its id; otherwise one row is added, and it fails iff it would lack a name; never a second row |
| Seed.CombinedTextMentions | seed_data.py:52-55 | the embedding text contains the title, the content and every tag |
| Seed.FindTitle | seed_data.py:47-49 | the title lookup finds a committed row with that title iff one exists |
| Seed.SeedStepUpdates | seed_data.py:57-64 | an entry whose title is committed refreshes that row's content, tags, company, type, priority and embedding, keeping id and title, and adds no row |
| Seed.SeedStepInserts | seed_data.py:65-78 | an entry with a new title appends exactly one block with a fresh id and all the entry's fields, a null priority stored as "3" (an update, by contrast, writes the null) |
| Seed.SeededFailsIff | seed_data.py:57-119 | the run fails iff some entry names an unknown block type |
| Seed.SeededErrorAt | seed_data.py:57-78 | the run stops at the first unknown block type and reports it |
| Seed.SeededKeys | seed_data.py:45-80 | a run keeps the committed rows' ids and titles and gives added rows consecutive fresh ids |
| Seed.SeededTitles | seed_data.py:45-80 | after a run every entry's title is in the table |
| Seed.SeedTwiceAddsNothing | seed_data.py:47-78 | seeding the same entries again succeeds and inserts nothing: same length, ids, titles and counter |
| Seed.DuplicateNewTitlesBothInserted | seed_data.py:45-80 | two entries with the same new title in one run are both inserted, since the lookup sees only committed rows |
| Seed.FreshRowsUnique | models.py:29 | committed rows with their keys kept, followed by rows with fresh ids, have unique ids |
| Seed.SeededValid | seed_data.py:45-80 | a run keeps the primary keys unique and below the counter |
| Seed.SeedSession | seed_data.py:45-78 | the loop over entries computes `Seeded` |
| Seed.SeedExperienceBlocks | seed_data.py:41-119 | success commits the seeded table; an unknown type leaves the blocks and counter unchanged |
| Seed.CountsSnoc | seed_data.py:86-88 | one more entry adds one to its own type's count only |
| Seed.BlockCounts | seed_data.py:85-88 | the counting loop has one key per type named, holding how many entries name it, at least one |
| Seed.CountsSumToTotal | seed_data.py:85-88 | the per-type counts over distinct keys covering all types add up to the number of entries |
| Seed.SeedDatabase | seed_data.py:96-121 | personal info is seeded first; the run succeeds iff the name is available and every type is known; on success the blocks and counter are those of the seeded session started after the personal row, and the counts are returned; a blocks failure leaves the blocks as they were |
| Migration.Marked | migrate_database.py:48-76 | an UPDATE never changes title or company |
| Migration.Category | migrate_database.py:48-76 | skills wins whenever its rule matches; supporting project iff no rule matches; otherwise the type of a matching rule |
| Migration.MatchesKeys | migrate_database.py:48-76 | the WHERE clauses read only title and company |
| Migration.MarkedAllLastWins | migrate_database.py:48-76 | running the UPDATEs in order leaves a row unmatched by all of them unchanged, and otherwise the last matching rule decides |
| Migration.CategorisedRow | migrate_database.py:32-76 | a migrated row takes the last matching rule's type with priority '1', or stays supporting project with '3'; title and company are kept |
| Migration.CategorisedUnfold | migrate_database.py:48-76 | the categorisation is the four UPDATEs in source order over the defaulted row |
| Migration.BlocksTable.constructor | migrate_database.py:20-28 | a table with the given rows and columns |
| Migration.BlocksTable.AddColumns | migrate_database.py:32-42 | both columns are added and every row takes the defaults |
| Migration.BlocksTable.Update | migrate_database.py:48-76 | one UPDATE marks exactly the matching rows |
| Migration.BlocksTable.Migrate | migrate_database.py:20-88 | nothing changes when block_type exists; an ALTER on an existing priority column fails and rolls back; otherwise every row is categorised |
| Health.AllBlockTypesListed | verify_setup.py:36 | the count loop visits every block type |
| Health.CountBlocks | verify_setup.py:35-43 | the count map holds every type with its number of blocks |
| Health.CheckCritical | verify_setup.py:48-62 | the flag stays set iff every critical count reaches its minimum |
| Health.CriticalThresholds | verify_setup.py:48-62 | critical checks pass iff skills summary >= 1, pillar >= 2, employment >= 1 and education >= 1 |
| Health.MissingIff | verify_setup.py:72-82 | a skill is reported missing iff it is required and neither a substring of the summary content nor one of its tags |
| Health.CollectMissingSkills | verify_setup.py:71-83 | the loop collects exactly the missing required skills, in order |
| Health.FilterKeepsAll | verify_setup.py:93-98 | a filtered count equals the total iff every row passes |
| Health.EmbeddingsComplete | verify_setup.py:93-101 | the embeddings check passes iff every block has an embedding |
| Health.ParseInt | verify_setup.py:118 | `int()` rejects a blank string |
| Health.ParseDigits | verify_setup.py:118 | `int()` of a digit string is its decimal value |
| Health.StarsOfDigits | verify_setup.py:118 | no or empty priority gives 3 stars, and a digit string its value |
| Health.TagSummary | verify_setup.py:120-123 | the tag line is printed iff the tags are non-empty, with their count |
| Health.ListingSnoc | verify_setup.py:112-123 | one more block adds its lines to the listing |
| Health.ListBlocks | verify_setup.py:107-123 | the loop with `current_type` prints exactly the listing |
| Health.ListingHeaders | verify_setup.py:112-116 | a header is printed exactly at each type change |
| Health.GroupedTypes | verify_setup.py:107-116 | over rows sorted by type, the group types strictly increase and cover every row |
| Health.GroupedHeaders | verify_setup.py:107-116 | over rows sorted by type, one header per type present, in declaration order |
| Health.RecommendationIff | verify_setup.py:130-135 | missing critical blocks come first, then missing embeddings, and healthy iff neither |
| Health.VerifySetup | verify_setup.py:14-141 | no personal info stops the check before anything else; otherwise the counts, the critical flag, the missing skills, the embedding totals, the listing and the recommendation are reported |

## Left out

- streamlit_app.py, the React front end and database.py's engine set-up: user interface and I/O, not part of this model.
- The OpenAI calls and prompt texts (`analyze_skills_gap`, `generate_tailored_cv`, `generate_cover_letter`, the embedding request). They become function parameters. Only the fallback embedding and the first-three-chunks rule are modelled.
- `extract_skills_from_job` is not part of this model. The skill list is a parameter.
- pgvector's cosine distance is an arbitrary function into `real`, and floating point is exact rational arithmetic.
- SHA-256 is a parameter that returns 32 bytes.
- `print` output, logging, fonts, colours and paragraph styling of the generated documents, and file writing. The documents are modelled as lists of paragraph kinds with their text.
- The style-guideline table and its endpoints: `create_job_application` reads the guidelines only to pass them to the LLM, which is a parameter here.
- The read-only list endpoints and `get_personal_info`.
- `updated_at` and `created_at` timestamps, except `createdAt` on blocks, which the employment query orders by.
- Seed.SeedPersonalInfo: JSON values are strings (an explicit JSON null and keys that are not columns are not modelled). `PersonalInfo(**data)` without a name is modelled as the NOT NULL failure it causes at commit.
- Seed.SeedItem: a missing key of a data-file entry (a `KeyError`) is not modelled. A JSON null company is `None`.
- Health.VerifySetup: the ORDER BY (block_type, priority) sort is not computed. The sorted rows are an input, and `GroupedHeaders` states what the listing makes of any type-sorted input. Priority order within a type is not modelled.
- Selection.AnyTagContainsExists: `str.lower()` is modelled as ASCII lower-casing. Python also lower-cases non-ASCII letters, so a skill "É" matches a tag "é" in the program but not in this model.
- Health.ParseInt: Python's `int()` also accepts `_` between digits and non-ASCII digits. Neither is modelled, so such a priority counts as a failure here.
- Health.Stars: a priority that `int()` rejects is modelled as the script stopping, with no listing and no recommendation.
- The database stores SQLAlchemy enum columns by member name by default. The migration writes lower-case values into a plain VARCHAR. The model keeps one string per type and does not model how the two interact.
- `test_skill_extraction` in verify_setup.py calls the LLM; not modelled.
- Concurrency between requests and sessions: each operation runs alone.
