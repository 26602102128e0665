# Buffer-ownership allocator and message dispatch of deno's `src/main.cc`

This project models two parts of deno's native entry point.

1. The allocator that the message builder installs under FlatBuffers, `FlatBufferBuilder::Allocator`. It remembers the most recent raw allocation (`last_alloc_ptr_`, `last_alloc_len_`). It can hand that allocation out as a `deno_buf` owned by the receiver, once until the kept pointer is released, and it marks it in `keep_alloc_ptr_` so that the builder's own later `deallocate` does not free it. `ExportBuf` is the builder's entry point to that hand-off.
2. The dispatch of a message arriving from the script side (`MessagesFromJS`). After verification it routes on the message tag: `Start` goes to `HandleStart`, which answers with a `StartRes` holding the working directory and the process arguments. `CodeFetch` goes to `HandleCodeFetch`, which forwards the request to the module resolver. `NONE` and every other tag stop the process.

Files:

- `arena.dfy` (module `Arena`) holds the allocator as a value-level state machine. Addresses are natural numbers, and 0 stands for nullptr. The state adds three sets that the program never stores:
  - `live`: regions obtained from malloc and not freed;
  - `held`: blocks FlatBuffers got from `allocate` and has not yet passed to `deallocate`;
  - `exported`: regions ever handed out.

  FlatBuffers' side of the contract is that `deallocate` receives null or a held block. Under that contract alone, the invariant proves that the one-pointer guard in `deallocate` is enough: no exported region is ever freed, and no block is freed twice. The module also defines runs of allocator calls and the lemmas about them.
- `builder.dfy` (module `Builder`) holds the classes `Allocator` and `FlatBufferBuilder`. Their fields are the source's fields; the three sets above and the history of calls made on the object are ghost fields. Each method is proved to change the object exactly as the matching `Arena` function does. The object invariant states that the object's state is what `Arena.Run` produces from the initial state on that history, so the `Arena` run lemmas apply to every allocator object.
- `messages.dfy` (module `Messages`) holds the envelope (`Base`, the union `Any`), `HandleStart`, `HandleCodeFetch` and `MessagesFromJS`.

Environment inputs:

- The address `malloc(size)` returns is a parameter of `allocate`. Null means malloc failed. A non-null address must not be live. Because exported regions stay in `live` (see "## Left out"), this is stronger than malloc's real contract.
- FlatBuffers verification and root access are function parameters (`verify`, `getRoot`). The bytes must pass `verify` before anything is read.
- The builder's buffer pointer and size are parameters of `ExportBuf`.
- `getcwd`'s result and the argument vector are parameters of `HandleStart`. The `argc`/`argv` pair is one sequence whose length is `argc`.

Two facts about the code's guard:

- A second release of the exported pointer is not guarded. The first release clears `keep_alloc_ptr_` (src/main.cc:68), so a second one would reach `free` (src/main.cc:72). FlatBuffers never releases a block twice, and `Arena.ReleaseKeptThenAgain` states both halves.
- Export is re-enabled by any `deallocate` of the kept pointer, not only by a reset. That includes the release a growing builder makes when it outgrows the exported buffer. `Arena.ExportAgainAfterGrowth` exhibits two exports from one builder with no reset in between. The comment at src/main.cc:113-114 says a builder must not be used after `ExportBuf` until it is reset, so this is a usage rule and not a defect.

## Model

| member | source | states |
|---|---|---|
| Arena.Allocate | src/main.cc:46-56 | returns malloc's block; on failure the state is unchanged; on success the block was not live, becomes live and held, and last/lastLen become block/size; keep and the exported set are unchanged; the invariant is preserved |
| Arena.Deallocate | src/main.cc:58-73 | succeeds exactly for null or a held block, which is no longer held afterwards; releasing the last allocation resets last/lastLen; the kept pointer is cleared and stays live; any other pointer is freed and was never exported; exported regions stay live; the invariant is preserved |
| Arena.GetAndKeepBuf | src/main.cc:75-101 | succeeds exactly when the four assertions hold; the buffer describes the whole last allocation and the requested slice, the slice lies inside the allocation; the new state has keep equal to last, last/lastLen/live/held unchanged and the last allocation added to the exported set; afterwards no export is allowed |
| Arena.RunKeepsExportedLive | src/main.cc:58-101 | over any run of allocate/deallocate/export calls that keeps FlatBuffers' release contract, the invariant holds, exported regions stay exported and are never freed |
| Arena.SecondExportRejected | src/main.cc:88-93 | once a buffer is kept, any run of calls that never deallocates the kept pointer leaves it kept, and an export after such calls fails |
| Arena.ReleaseKeptThenAgain | src/main.cc:64-72 | releasing the kept pointer frees nothing, clears keep and ends FlatBuffers' hold on it, so a second release (which would reach free) is outside the contract |
| Arena.FreedRegionNotFreedAgain | src/main.cc:58-73 | a block deallocate frees was held and never exported, is no longer held, and a second deallocate of it is refused (no double free) |
| Arena.ExportAgainAfterReset | src/main.cc:64-69 | after the kept buffer is released by a reset, a fresh allocation can be exported again |
| Arena.ExportAgainAfterGrowth | src/main.cc:64-69 | growth after an export re-enables export: a second export from the same builder passes every assertion |
| Builder.Allocator.constructor | src/main.cc:41-43 | all three fields start null/zero, the allocator owns nothing and no call has been made |
| Builder.Allocator.Allocate | src/main.cc:46-56 | returns malloc's result; on success last_alloc_ptr_/last_alloc_len_ become the new region and size, on failure the state is unchanged; keep_alloc_ptr_ never changes; agrees with Arena.Allocate |
| Builder.Allocator.Deallocate | src/main.cc:58-73 | requires null or a held block, which is no longer held afterwards; the last allocation is forgotten when released; the kept pointer is cleared and not freed; any other pointer is freed; exported regions stay live; agrees with Arena.Deallocate |
| Builder.Allocator.GetAndKeepBuf | src/main.cc:75-101 | requires the four assertions; keep_alloc_ptr_ becomes last_alloc_ptr_, the returned buffer is the last allocation with the given slice inside it, and no second export is allowed; agrees with Arena.GetAndKeepBuf |
| Builder.FlatBufferBuilder.constructor | src/main.cc:104-108 | the builder owns a fresh allocator in its initial state |
| Builder.FlatBufferBuilder.ExportBuf | src/main.cc:110-119 | exports the builder's data pointer and size through GetAndKeepBuf; the buffer covers the last allocation and contains the slice; a second export is not allowed |
| Builder.BuildGrowExportReset | src/main.cc:76-83 | one builder's allocate, grow, release, export and reset sequence frees the outgrown buffer, keeps the exported one live and leaves the allocator ready to export again |
| Messages.HandleStart | src/main.cc:123-141 | the response carries the request's cmd_id, the StartRes tag, the working directory and exactly the argument list, same length and order |
| Messages.HandleCodeFetch | src/main.cc:143-150 | forwards the cmd_id, module specifier and containing file unchanged and sets no response |
| Messages.MessagesFromJS | src/main.cc:152-180 | requires verification; Start yields exactly a response built by HandleStart with the envelope's cmd_id; CodeFetch is exactly forwarded with that cmd_id; NONE is fatal with its own reason; every other tag is fatal as unhandled |

## Left out

- Messages.MessagesFromJS: verification is a precondition. In the source it is a `DCHECK`, which release builds do not evaluate.
- Arena.GetAndKeepBuf and Builder.Allocator.GetAndKeepBuf: the four checks are C `assert`s, which a build with `NDEBUG` does not evaluate. The model treats them as always checked (an `Err` in the function, preconditions in the method). In such a build a second export is not stopped: it sets `keep_alloc_ptr_` to `last_alloc_ptr_` again. Right after an export these are equal, so the same allocation is handed out twice and both receivers own it, each expecting to free it. Only if a newer allocation has become the last one while the kept block is still held does the first exported buffer lose its guard. The returned slice is not checked against the allocation.
- Messages.HandleCodeFetch: decoding is assumed to yield both strings of a `CodeFetch`. The source dereferences `module_specifier()` and `containing_file()` without a null check, so a verified message whose fields are absent crashes unless the schema, which is not part of this model, marks them required.
- Messages.MessagesFromJS: every tag other than `Start`, `CodeFetch` and `NONE` goes straight to `Fatal(UnhandledMessage)`. The source first reads `EnumNamesAny()[msg_type]` for printing, which is out of range for a tag the generated name table does not cover; that read is not modelled.
- The byte layout of FlatBuffers (`CreateString`, `CreateVector`, `CreateStartRes`, `CreateBase`, `Finish`) and the structural checks of `flatbuffers::Verifier` are library code the model does not include. The envelope is the value `Base`, and decoding is the parameter `getRoot`. So the encode/decode round trip of a `StartRes` is not modelled.
- The third argument of `CreateBase` in `HandleStart`, a literal 0, belongs to a schema field that is not part of this model.
- `HandleStart` does not build its response through `FlatBufferBuilder`/`ExportBuf`, because the address `Finish` produces is library state. `deno_set_response` is returned as the `SetResponse` effect.
- `getcwd`, whose result is ignored by the source even when it fails, and `printf` are I/O. The working directory is a parameter, and the printing is omitted.
- The Rust call `handle_code_fetch` is a foreign call. It is returned as the `ForwardCodeFetch` effect.
- `deno_main` consists of `deno_init`, `deno_set_flags`, `deno_new`, `deno_execute`, `deno_last_exception`, `deno_delete` and `exit`. This is process start-up and calls into the V8 embedding.
- src/main.rs is FFI declarations and a wrapper over the C API. The libdeno send/recv/set_response binding exercised by src/mock_runtime_test.cc and js/mock_runtime.js is not part of this model, because its implementation is not among the modelled files.
- Pointer arithmetic is on unbounded naturals. `data_ptr + data_len` cannot wrap around, and `size_t` limits are not modelled.
- Regions are identified by their start address. Overlap between distinct regions is not tracked.
- Arena.MallocFresh: the receiver's eventual `free` of an exported buffer is not modelled, so exported regions stay live forever. malloc is therefore assumed never to return an exported buffer's address again, although real malloc may do so once the receiver has freed it.
- The builder's internal buffer management (`vector_downward`, `Reset`, `Clear`) is not modelled. It appears only as the allocate/deallocate calls it makes, in `Builder.BuildGrowExportReset` and the `Arena` run lemmas.
