/**
 * The write endpoints of the API over an in-memory database: the personal-info
 * singleton upsert, experience-block creation and deletion, and job-application
 * creation. Row ids come from a counter; timestamps and the LLM results arrive as
 * parameters.
 */
module Store {
  import opened Wrappers
  import opened Models
  import opened Selection
  import opened LlmService

  /** An HTTPException: a status code and a detail message. */
  datatype HttpError = HttpError(status: nat, detail: string)

  /** What an uncaught exception becomes: a 500 response. */
  const InternalServerError := HttpError(500, "Internal Server Error")

  /** The body of POST /api/experience-blocks, with its field defaults. */
  datatype BlockRequest = BlockRequest(
    title: string,
    company: Option<string>,
    content: string,
    metadataTags: seq<string>,
    blockType: Option<string>,
    priority: Option<string>)

  function DefaultBlockRequest(title: string, content: string): (r: BlockRequest)
    ensures r.blockType == Some("supporting_project") && r.priority == Some("3")
    ensures r.company.None? && r.metadataTags == []
  {
    BlockRequest(title, None, content, [], Some("supporting_project"), Some("3"))
  }

  /** The body of POST /api/applications. */
  datatype ApplicationRequest = ApplicationRequest(
    companyName: string,
    jobTitle: string,
    rawSpec: string,
    jobUrl: Option<string>)

  /**
   * `BlockType(block_type) if block_type else SUPPORTING_PROJECT`: a missing or empty
   * value means a supporting project; any other value must be one of the five stored
   * values, and None here stands for the ValueError.
   */
  function ConvertBlockType(blockType: Option<string>): (r: Option<BlockType>)
    ensures (blockType.None? || blockType.value == "") ==> r == Some(SupportingProject)
    ensures blockType.Some? && blockType.value != "" ==>
      (r.Some? <==> exists t :: t in AllBlockTypes && BlockTypeValue(t) == blockType.value)
    ensures blockType.Some? && blockType.value != "" && r.Some? ==> BlockTypeValue(r.value) == blockType.value
  {
    if blockType.None? || blockType.value == "" then Some(SupportingProject)
    else
      EnumerationsClosed(blockType.value);
      ParseBlockType(blockType.value)
  }

  /** The first row with the given id: `.filter(id == block_id).first()`. */
  function FindById(s: seq<Block>, id: nat): (r: Option<nat>)
    ensures r.None? <==> id !in IdSet(s)
    ensures r.Some? ==> r.value < |s| && s[r.value].id == id
  {
    if s == [] then None
    else if s[0].id == id then Some(0)
    else
      var rest := FindById(s[1..], id);
      assert forall b :: b in s <==> b == s[0] || b in s[1..];
      if rest.None? then None else Some(rest.value + 1)
  }

  /** An experience chunk of a selected block; missing tags become the empty list. */
  function ToChunk(b: Block): (c: Chunk)
    ensures c.title == b.title && c.company == b.company && c.content == b.content
    ensures b.tags.Some? ==> c.tags == b.tags.value
    ensures b.tags.None? ==> c.tags == []
  {
    Chunk(b.title, b.company, b.content, if b.tags.Some? then b.tags.value else [])
  }

  function ToChunks(blocks: seq<Block>): (r: seq<Chunk>)
    ensures |r| == |blocks|
    ensures forall i :: 0 <= i < |blocks| ==> r[i] == ToChunk(blocks[i])
  {
    seq(|blocks|, i requires 0 <= i < |blocks| => ToChunk(blocks[i]))
  }

  /**
   * The outcome of POST /api/applications given the selected blocks: without a
   * personal-info row, or when nothing is selected, a 400 error; otherwise a draft
   * application holding the three generated documents, each computed from the chunks
   * of the selected blocks.
   */
  function ApplicationFor(hasPersonal: bool, experiences: seq<Block>, id: nat, appData: ApplicationRequest,
                          skillsGap: seq<Chunk> -> string, tailoredCv: seq<Chunk> -> string,
                          coverLetter: seq<Chunk> -> string): (r: Result<JobApplication, HttpError>)
    ensures !hasPersonal ==> r == Err(HttpError(400, "Please add your personal info first"))
    ensures hasPersonal && experiences == [] ==>
      r == Err(HttpError(400, "Please add at least one experience block first"))
    ensures r.Ok? <==> hasPersonal && experiences != []
    ensures r.Ok? ==>
      var chunks := ToChunks(experiences);
      r.value.id == id && r.value.status == Draft &&
      r.value.companyName == appData.companyName && r.value.jobTitle == appData.jobTitle &&
      r.value.rawSpec == appData.rawSpec && r.value.jobUrl == appData.jobUrl &&
      r.value.generatedCv == Some(tailoredCv(chunks)) &&
      r.value.generatedCoverLetter == Some(coverLetter(chunks)) &&
      r.value.skillsGapReport == Some(skillsGap(chunks)) &&
      r.value.appliedDate.None? && r.value.notes.None?
  {
    if !hasPersonal then Err(HttpError(400, "Please add your personal info first"))
    else if experiences == [] then Err(HttpError(400, "Please add at least one experience block first"))
    else
      var chunks := ToChunks(experiences);
      Ok(JobApplication(id, appData.companyName, appData.jobTitle, appData.rawSpec,
                        Some(tailoredCv(chunks)), Some(coverLetter(chunks)), Some(skillsGap(chunks)),
                        Draft, None, None, appData.jobUrl))
  }

  /**
   * The reads and the generation steps of create_job_application, before the insert:
   * the personal-info check comes before the selection is run.
   */
  method ComposeApplication(hasPersonal: bool, store: seq<Block>, id: nat, appData: ApplicationRequest,
                            jobSkills: seq<string>, jobEmbedding: Embedding, distance: (Embedding, Embedding) -> real,
                            skillsGap: seq<Chunk> -> string, tailoredCv: seq<Chunk> -> string,
                            coverLetter: seq<Chunk> -> string)
    returns (r: Result<JobApplication, HttpError>)
    ensures r == ApplicationFor(hasPersonal, Selected(store, jobSkills, jobEmbedding, distance), id, appData,
                                skillsGap, tailoredCv, coverLetter)
  {
    if !hasPersonal {
      return Err(HttpError(400, "Please add your personal info first"));
    }
    var experiences := SelectRelevantBlocks(store, jobSkills, jobEmbedding, distance);
    if experiences == [] {
      return Err(HttpError(400, "Please add at least one experience block first"));
    }
    var experienceChunks := ToChunks(experiences);
    var gap := skillsGap(experienceChunks);
    var cv := tailoredCv(experienceChunks);
    var letter := coverLetter(experienceChunks);
    r := Ok(JobApplication(id, appData.companyName, appData.jobTitle, appData.rawSpec,
                           Some(cv), Some(letter), Some(gap), Draft, None, None, appData.jobUrl));
  }

  class Database {
    var blocks: seq<Block>
    var personal: seq<PersonalInfo>
    var applications: seq<JobApplication>
    var nextId: nat

    /** Primary keys: unique block ids, every id issued below the counter, at most one personal-info row. */
    ghost predicate Valid()
      reads this
    {
      UniqueIds(blocks) && (forall b :: b in blocks ==> b.id < nextId) &&
      |personal| <= 1 &&
      (forall p :: p in personal ==> p.id < nextId) &&
      (forall a :: a in applications ==> a.id < nextId)
    }

    constructor ()
      ensures Valid()
      ensures blocks == [] && personal == [] && applications == []
    {
      blocks, personal, applications, nextId := [], [], [], 0;
    }

    /** POST /api/personal-info: overwrite every field of the first row, or insert the first row. */
    method CreatePersonalInfo(info: Profile) returns (row: PersonalInfo)
      requires Valid()
      modifies this
      ensures Valid()
      ensures |personal| == 1 && personal[0] == row && row.profile == info
      ensures old(personal) != [] ==> row.id == old(personal)[0].id && nextId == old(nextId)
      ensures old(personal) == [] ==> row.id == old(nextId) && nextId == old(nextId) + 1
      ensures blocks == old(blocks) && applications == old(applications)
    {
      if personal != [] {
        row := PersonalInfo(personal[0].id, info);
        personal := [row] + personal[1..];
      } else {
        row := PersonalInfo(nextId, info);
        personal := [row];
        nextId := nextId + 1;
      }
    }

    /**
     * POST /api/experience-blocks: convert the block type (an unknown value is an
     * unhandled ValueError, so a 500 and no row) and insert one block with the given
     * embedding and creation time; a null priority is stored as the column default.
     */
    method CreateExperienceBlock(exp: BlockRequest, embedding: Embedding, now: int)
      returns (r: Result<Block, HttpError>)
      requires Valid()
      modifies this
      ensures Valid()
      ensures ConvertBlockType(exp.blockType).None? <==> r.Err?
      ensures r.Err? ==> r.error == InternalServerError && blocks == old(blocks) && nextId == old(nextId)
      ensures r.Ok? ==> blocks == old(blocks) + [r.value] && r.value.id !in IdSet(old(blocks))
      ensures r.Ok? ==> r.value == Block(old(nextId), exp.title, exp.company, exp.content, Some(exp.metadataTags),
                                          ConvertBlockType(exp.blockType).value, InsertedPriority(exp.priority),
                                          Some(embedding), now)
      ensures r.Ok? ==> r.value.priority == if exp.priority.None? then Some("3") else exp.priority
      ensures personal == old(personal) && applications == old(applications)
    {
      var blockTypeEnum := ConvertBlockType(exp.blockType);
      if blockTypeEnum.None? {
        return Err(InternalServerError);
      }
      var block := Block(nextId, exp.title, exp.company, exp.content, Some(exp.metadataTags),
                         blockTypeEnum.value, InsertedPriority(exp.priority), Some(embedding), now);
      IdSetConcat(blocks, [block]);
      blocks := blocks + [block];
      nextId := nextId + 1;
      r := Ok(block);
    }

    /** DELETE /api/experience-blocks/{id}: 404 for an unknown id, else remove that block. */
    method DeleteExperienceBlock(blockId: nat) returns (r: Result<string, HttpError>)
      requires Valid()
      modifies this
      ensures Valid()
      ensures blockId !in IdSet(old(blocks)) ==>
        r == Err(HttpError(404, "Experience block not found")) && blocks == old(blocks)
      ensures blockId in IdSet(old(blocks)) ==>
        r == Ok("Deleted successfully") && |blocks| == |old(blocks)| - 1 && blockId !in IdSet(blocks) &&
        (forall b :: b in old(blocks) && b.id != blockId ==> b in blocks) &&
        (forall b :: b in blocks ==> b in old(blocks))
      ensures blockId in IdSet(old(blocks)) ==>
        exists i :: 0 <= i < |old(blocks)| && old(blocks)[i].id == blockId &&
                    blocks == old(blocks)[..i] + old(blocks)[i + 1..]
      ensures personal == old(personal) && applications == old(applications) && nextId == old(nextId)
    {
      var found := FindById(blocks, blockId);
      if found.None? {
        return Err(HttpError(404, "Experience block not found"));
      }
      var i := found.value;
      RemoveAtUnique(blocks, i);
      ghost var before := blocks;
      blocks := RemoveAt(blocks, i);
      forall b | b in before && b.id != blockId ensures b in blocks {
        InRemoveAt(before, i, b);
      }
      assert before[i].id == blockId && blocks == before[..i] + before[i + 1..];
      r := Ok("Deleted successfully");
    }

    /**
     * POST /api/applications: 400 without personal info (before any selection), 400 when
     * the selection is empty, else store one draft application whose CV, cover letter and
     * gap report the LLM (the three function parameters) derives from the selected chunks.
     */
    method CreateJobApplication(appData: ApplicationRequest, jobSkills: seq<string>, jobEmbedding: Embedding,
                                distance: (Embedding, Embedding) -> real,
                                skillsGap: seq<Chunk> -> string, tailoredCv: seq<Chunk> -> string,
                                coverLetter: seq<Chunk> -> string)
      returns (r: Result<JobApplication, HttpError>)
      requires Valid()
      modifies this
      ensures Valid()
      ensures r == ApplicationFor(old(personal) != [], Selected(old(blocks), jobSkills, jobEmbedding, distance),
                                  old(nextId), appData, skillsGap, tailoredCv, coverLetter)
      ensures applications == old(applications) + (if r.Ok? then [r.value] else [])
      ensures blocks == old(blocks) && personal == old(personal)
    {
      r := ComposeApplication(personal != [], blocks, nextId, appData, jobSkills, jobEmbedding,
                              distance, skillsGap, tailoredCv, coverLetter);
      if r.Ok? {
        applications := applications + [r.value];
        nextId := nextId + 1;
      }
    }
  }
}
