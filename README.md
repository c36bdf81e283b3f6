# sys-platforms execution core in Dafny

This project models the core of the execution-platform layer in sys-platforms.

- **Query.** It resolves a factor to an image by scanning the platform's architectures in priority order. It then assembles the execution plan for that image. The plan is the triple of environment, executable and argument vector.
- **Vector.** It persists a platform as a directory of records. These are the `system` record, the `architectures` priority record, and one `plans/<architecture>` record per architecture.
- **HostExecution.** It initialises the host's default platform: a native plan, a Python plan and a two-line priority record.
- **HostConstruction.** It builds the text of the construction-context records: comments, constants, definitions, the host target, variants and type records, and the linker choice.

Modules:

- `Text` holds Python's `join` and `split` and a line view of texts. It also has the lemmas that let every record be read back.
- `Plans` holds the byte type, the plan triple, and a shared mutable string list (`StringList`).
- `Records` holds the platform directory as a class. It is a map from record names to bytes plus the set of collections that exist. `fs_store`, `fs_mkdir` and `fs_init` are its methods. `fs_init` is read as "create the leading collection, then replace the record" (see "## Left out").
- `Query` models `query.py`.
- `Vector` models `vector.py`.
- `HostExecution` models `host/execution.py`.
- `HostConstruction` models `host/construction.py`.

Foreign calls become parameters about which nothing is assumed:

- the plan serializer (`serialize_sx_plan`);
- the text encoding;
- the platform's `prepare`;
- the project index (`split`, `image`);
- the Python tool lookup;
- the host identity;
- the factor-type lookup used by `mksole`.

The scan is a loop proved against a recursive first-hit function. A ghost output records every variant handed to the image lookup, so "nothing after the hit is queried" is a provable statement.

`fs_update_sections` puts each section's id in front of that section's synonym list, in place. The model keeps the lists as shared objects. Two sections that share one list therefore both change it, as in the source. The common case, one list per section, is covered by a separate lemma.

Three behaviours of the code are worth stating:

- With a fixed architecture, `select` queries the image once and plans with it (query.py:86-88). It does not check for a `void` image.
- `plan` takes the argument vector that `prepare` returns unchanged (query.py:64-66).
- The plan's environment is a list that may repeat a name (query.py:62-65). `Query.Effective` gives the environment a process would see, where the last pair wins.

## Model

| member | source | states |
|---|---|---|
| Query.ProjectEnvironment | query.py:18-28 | The factor variables are FACTOR, F_PRODUCT, F_PROJECT, F_PATH and F_IDENTIFIER, in that order |
| Query.ProjectEnvironmentValues | query.py:18-28 | Applied, they give the dotted factor name, the product, the project, the project-relative path and the slash-joined identifier |
| Query.ImageEnvironment | query.py:30-38 | The image variables are F_SYSTEM, F_ARCHITECTURE and F_IMAGE, in that order |
| Query.ImageEnvironmentValues | query.py:30-38 | Applied, they give the variant's system and architecture and the image path |
| Query.Qualified | query.py:23 | The project's factor name, a dot, then the project-relative factor path |
| Query.Cvar | query.py:40-42 | The variant with its architecture replaced and every other field unchanged |
| Query.FirstHit | query.py:44-53 | The scan index: every earlier architecture's image is void, and the indexed one is not void unless the list is exhausted |
| Query.Image | query.py:44-53 | The loop returns the first variant whose image is not void, with that image, or nothing. It queries exactly the architectures up to the hit, in order |
| Query.FirstHitIs | query.py:49-53 | "All earlier void, this one not void" determines the hit index uniquely |
| Query.Found | query.py:49-53 | The scan's result is empty if and only if every architecture's image is void. Otherwise it holds a listed architecture's variant, that variant's image, and the image is not void |
| Query.FoundPrecedesEveryImage | query.py:49-53 | Any architecture with an image forces a hit at or before it |
| Query.LaterArchitecturesIgnored | query.py:49-53 | Architectures after the hit are never queried: replacing them leaves the result and the queries unchanged |
| Query.ExhaustedScanQueriesAll | query.py:49-53 | When nothing is found, every architecture was queried once, in priority order |
| Query.ProbesVaryOnlyArchitecture | query.py:49-51 | Every queried variant is the base variant with a listed architecture substituted |
| Query.PriorityScenario | query.py:49-53 | Of [a1, a2, a3] with an image only for a2, the scan returns a2 after querying a1 and a2, and never queries a3 |
| Query.Plan | query.py:57-66 | Factor variables, then image variables, then the platform's own variables. The platform's executable, falling back to the image. The argument vector the platform prepared |
| Query.EffectiveAppend | query.py:62-65 | Extending the environment list applies the added pairs over the earlier ones |
| Query.PlanEffective | query.py:62-66 | Applying a plan's environment applies the identity variables and then the platform's variables |
| Query.IdentityUnion | query.py:62 | The factor and image variables together give the eight identity values |
| Query.PlanEnvironmentPrecedence | query.py:62-66 | The applied environment holds every identity and platform name. A platform variable wins over an identity variable of the same name. An identity variable the platform does not name keeps its value |
| Query.NativePlanRunsImage | query.py:62-66 | With no executable from the platform, the plan runs the image. Its environment names the architecture, the image and the factor |
| Query.Select | query.py:68-95 | An unknown factor is an error. A fixed architecture means one query and a plan with it. Otherwise the scan runs, and finding nothing is the integration error "no architecture available for the selected factor" |
| Records.Directory.Store | vector.py:16 | Storing replaces exactly one record and nothing else |
| Records.Directory.MakeCollection | vector.py:17 | Making a directory adds the collection and leaves the records alone |
| Records.Directory.Init | host/execution.py:16-17 | Initialising a record creates its collection and stores the record |
| Plans.StringList.InsertFirst | vector.py:42 | The list gains the item in front, in place |
| Plans.StringList.Append | host/execution.py:25 | The list gains the item at the end, in place |
| Vector.FsInitialize | vector.py:12-19 | Writes the system record, creates the plans collection and stores an empty priority record. Returns the same directory |
| Vector.FsUpdateSections | vector.py:32-45 | Stores each section's serialized plan under its id in order. Puts each id in front of its synonym list, including lists shared between sections. Writes the newline-joined priority lines last |
| Vector.FsUpdate | vector.py:21-30 | The system record, then the sections, with the same guarantees. The system is written encoded (see "## Left out") |
| Vector.DistinctListsGetOwnId | vector.py:42 | With one list per section, each list gains exactly its own id, in front |
| Vector.LineStartsWithId | vector.py:42-43 | Whatever lists are shared, each priority line's first field is its section's id |
| Vector.ArchitecturesReadBack | vector.py:39-45 | Whatever lists the sections share, the priority record splits back into one line per section, in input order. Each line's fields are that section's list just after its own id went in front. No sections give an empty record |
| Vector.ArchitecturesReadBackDistinct | vector.py:39-45 | With one list per section, each line's fields are exactly the section's id and then the synonyms its list held before |
| Vector.PlanRecordInjective | vector.py:41 | Different ids give different plan records |
| Vector.PlanRecordApart | vector.py:8-10 | Plan records never collide with the system or priority record |
| Vector.PlanWritesCover | vector.py:39-41 | Every stored section has a plan record |
| Vector.PlanWritesLast | vector.py:39-41 | A plan record holds the plan of the last section with that id |
| Vector.PlanWritesFrame | vector.py:39-41 | Storing plans leaves every other record as it was |
| Vector.UpdateWritesOnlyPlatformRecords | vector.py:21-45 | An update writes only the system record, the priority record and the sections' plan records |
| Vector.UpdatedRegistryConsistent | vector.py:21-45 | After an update the system record holds the system and the priority record holds the lines. Every listed id has a plan record, and an id listed once holds its own section's plan. The claim about the system record holds only if the system is encoded (see "## Left out") |
| HostExecution.Native | host/execution.py:12-17 | The architecture's plan record is created holding no bytes |
| HostExecution.Python | host/execution.py:19-27 | `-d` is appended to the tool's own argument list, in place. The architecture's plan record holds the serialized tool plan |
| HostExecution.Priority | host/execution.py:29-37 | The priority record is replaced with the two-line text |
| HostExecution.PriorityText | host/execution.py:33-36 | The priority text is exactly "host system", then "python python", each closed by a newline |
| HostExecution.PriorityReadBack | host/execution.py:33-37 | The priority text reads back as the host line, the Python line and an empty field. Each line splits into its id and its symbol |
| HostExecution.Initialize | host/execution.py:39-49 | The records after the system record, the native plan, the Python plan and the priority record, written in that order |
| HostExecution.InitializedRegistryConsistent | host/execution.py:39-49 | After initialisation, with `fs_init` replacing existing records, both ids in the priority record, host first, have plan records. The Python plan is under its id, and the host record is empty when the ids differ |
| HostConstruction.Comment | host/construction.py:85-86 | "# ", then the text, then one newline |
| HostConstruction.CommentReadBack | host/construction.py:85-86 | A comment is one "# " line |
| HostConstruction.Constant | host/construction.py:88-92 | Starts with the name and a colon line. It is that header alone exactly when there are no types, and otherwise ends with a blank line |
| HostConstruction.ConstantIsLines | host/construction.py:88-92 | A constant is its header line, then one tab-colon line per type and a blank line when there are types |
| HostConstruction.ConstantReadBack | host/construction.py:88-92 | Read back, a constant gives its header and its types in order |
| HostConstruction.SingleConstantLines | host/construction.py:88-92 | A one-type constant is its header, its single type line and a blank line |
| HostConstruction.Define | host/construction.py:94-99 | The loop builds the header and then one line per pair, in order. The value follows the colon only when it is not empty |
| HostConstruction.DefineBodyLines | host/construction.py:95-98 | The accumulated pair lines are exactly the per-pair lines, each closed by a newline |
| HostConstruction.DefineText | host/construction.py:94-99 | Starts with the name and a colon line. It is that header alone exactly when there are no pairs, and it always ends with a newline |
| HostConstruction.DefineTextLines | host/construction.py:94-99 | A definition is its header and its pair lines |
| HostConstruction.DefineReadBack | host/construction.py:94-99 | Read back, a definition gives its header and its pair lines in order |
| HostConstruction.FormHostTarget | host/construction.py:101-133 | The target is the fixed option constants followed by the linker interface constant |
| HostConstruction.LinkerConstant | host/construction.py:131 | The linker constant holds exactly the one interface |
| HostConstruction.FormHostTargetInjective | host/construction.py:101-133 | Different linker interfaces give different targets |
| HostConstruction.FormVariants | host/construction.py:135-141 | Starts with the systems constant and the system's architecture constant. It is exactly those two when no forms are given |
| HostConstruction.FormVariantsIsLines | host/construction.py:135-141 | The variants record is the systems constant and the system's architecture constant. The forms constant follows only when forms are given |
| HostConstruction.VariantsHead | host/construction.py:137-138 | The two leading constants are "[systems]" naming the system and "[system]" naming the architecture |
| HostConstruction.FormVariantsReadBack | host/construction.py:135-141 | Read back, the variants record gives those lines in order |
| HostConstruction.FormHostType | host/construction.py:143-167 | The host type is a comment, the compile and link tool definitions each followed by a blank line, and Translate and Render each led by its tool |
| HostConstruction.ToolTypeIsLines | host/construction.py:196-211 | A tool type is the tool's constant, then Translate and Render each led by a reference to the tool |
| HostConstruction.FormTextType | host/construction.py:196-211 | The text type defines -text-tool and routes Translate and Render through it |
| HostConstruction.FormPythonType | host/construction.py:233-248 | The Python type defines -pyc-tool and routes Translate and Render through it |
| HostConstruction.SystemSelectLinker | host/construction.py:288-297 | darwin gives the Apple interface. linux or openbsd gives the GNU interface, and nothing else does. Every other system gives the LLVM interface |
| HostConstruction.SystemPlan | host/construction.py:59-62 | An empty environment, with the path as both the executable and argv[0], followed by the arguments |
| HostConstruction.System | host/construction.py:59-62 | The serializer's text for the plan with no environment, the path as the executable, and argv made of the path followed by the arguments |
| HostConstruction.MkSole | host/construction.py:75-76 | The sole factor's path and source unchanged, and its type resolved to a factor path |
| HostConstruction.MkSet | host/construction.py:78-79 | The four set-factor fields unchanged and in order |

## Left out

- bin/switch.py, the execution driver, is not part of this model. It parses options, builds the project context and calls `select`. Then it either prints the serialized plan (bin/switch.py:84) or applies the plan's environment and calls `os.execv`, exiting with 250 if that returns (:87-90). Its integration-error path refers to an undefined `archseq` (:77), so that path raises a NameError.
- bin/initialize.py, the initialisation driver, is not part of this model. It checks that exactly one target argument is given and creates the target directory when it is void (:29-38). It then calls `initialize`. Unless `-c` is given, which clears `enable-cc` (:13-15, :43), it then either links `cc` to a given directory or builds the default one with `mkcc` (:44-56).
- The sx-plan serialization format: `serialize_sx_plan` is a parameter, so no round trip of plans is stated.
- Text encoding: an encoder parameter stands for UTF-8.
- `Platform.prepare`, `Context.split` and the project's `image` lookup are foreign. The ValueError or TypeError that the image lookup itself can raise, which `select` turns into the integration error, is not modelled. Only the scan's miss is.
- Query.Select: an exception from `split` for an unknown factor is modelled as an `UnknownFactor` error result.
- Query.Select: in the scan branch the source builds the base variant with no architecture (None). The model uses an empty architecture, which the scan always replaces before any query.
- Query.Cvar: the `cachedcalls` memoisation of `_cvar` is left out, because it does not change results.
- Query.Qualified: `project.factor + factor` is taken to be the dotted name; the factor-path type is not part of this model.
- Vector.FsUpdate: vector.py:29 hands `fs_store` the unencoded string `pf.system`, while every other store (vector.py:16, :18, :41, :45) passes encoded bytes. If `fs_store` accepts only bytes, `fs_update` fails at that line before writing anything, so no record changes. The model instead writes the system through the same encoder. Its system record, and what Vector.UpdatedRegistryConsistent says about that record, hold only under this encoding reading.
- Vector.FsUpdate: `pf.sections()` is taken as the given section list.
- `E_NAME` (vector.py:7) is declared, but nothing in the modelled code reads it, so it is not modelled.
- HostExecution.Initialize: the Python system identity (`psys`) is read but unused by the source, so it is not a parameter.
- HostExecution.Priority: the source writes the record with `fs_init` (host/execution.py:37). The record sits directly under the target, so no collection is created, and the model replaces the record like `fs_store`.
- HostExecution.Initialize: `fs_init` is taken to replace an existing record. It is defined in `fault.system.files`, which is not part of this model. `fs_initialize` first stores an empty `architectures` record (vector.py:18), and `priority` then writes it with `fs_init` (host/execution.py:37). If `fs_init` only creates a missing record, two things change. The priority record stays empty after `initialize`. And when the host and Python ids are equal, the native plan's empty record stays instead of the Python plan. `HostExecution.InitializedRegistryConsistent` holds only under the replacing reading.
- Records.Directory.Init: models `fs_init(data)` as creating the leading collection and then replacing the record. A store-if-absent behaviour is not modelled.
- The filesystem itself: `fs_store`, `fs_mkdir` and `fs_init` are modelled as updates of a record map and a collection set. Failures, permissions, atomicity and concurrent writers are left out.
- The remaining construction functions are not part of this model: `mkinfo`, `mktype`, `iproduct`, `getsource`, `host`, `text`, `python`, `mkctx`, `mkproject`, `mktools`, `mkvectors` and `mkcc`. They instantiate projects on disk, load files, or call the factory and the dispatcher.
- HostConstruction.System: the serialized text is whatever the serializer returns for `SystemPlan`; the format is not modelled.
