# Verified models of planning and one-shot authority

This project models two parts of the backend and proves properties of the models with
Dafny 4.11. `dafny verify dfyconfig.toml` checks everything.

**Deterministic planning over canonical JSON.** A printer and a cursor-driven parser for
canonical JSON (sections 2 to 7 of RFC 8259; key order as in section 3.2.3 of RFC 8785;
quoting as in section 25.5.2 of ECMA-262); a closed JSON Schema profile whose acyclicity
check makes defaulting terminate; JSON Pointer writes (sections 3 and 4 of RFC 6901); a
Cartesian sample planner; the revalidator that recomputes a plan without the schema; and
signed page cursors over the same encoding. The central theorem says exactly when planner and
revalidator agree (`PlanRevalidation.AgreementIsExact`, `PlanRevalidation.PlansAreAccepted`).

**One-shot authority under interleaving.** Five stateful services are modelled as state
machines over their segments between two awaits. For each, a value `State`, one function per
segment, a class whose methods do what the source's methods do and are proved equal to those
functions, and a `System` in which any number of calls, each suspended at one of its awaits,
run in any order among revocations, failures and clock ticks. The `...Runs` modules prove
invariants of every run.

A third, small part is the UTF-8 pager of run output.

How to read the model:

- Strings are sequences of 16-bit code units. `Num(n)` is a number that prints as the plain
  integer `n`. SHA-256 and HMAC are functions about which nothing is assumed but the length
  and alphabet of their results; absence of collisions is a hypothesis where it is needed.
- Random secrets, promises and objects with identity are numbered in order of creation.
- Clock readings, store answers, and what the network, brokers and sockets do are parameters
  of the events; nothing is assumed of them.
- Bytes decoded with replacement characters are decoded as the WHATWG Encoding Standard says
  (section 8.1.1, the UTF-8 decoder).
- `Option` and `Result` stand for returned values and thrown errors.

Findings, where the code does less than one might expect; the model follows the code:

- `encode` prints whole numbers from 2^53 to 10^21 as plain digits, which the parser refuses:
  the round trip holds exactly on safe integers (`CanonicalJsonLaws.RoundTrip`).
- Normalization can refuse its own output when `enum` or `const` names an object or array, and
  can change it when a reference has siblings that fill in values (`NormalizationWitnessSchemas`).
  With only checks beside references, a failing `enum` or `const` is the one way in which a second
  pass differs (`FixedPoints.FixedPointExactly`).
- Planner and revalidator disagree on some sweeps: under an accepted schema with a defaulting
  sibling of a reference, the planner returns a plan that the revalidator refuses
  (`AgreementWitness.AcceptedSchemaBreaksAgreement`). They agree exactly on plans that are no
  sweeps and on sweeps whose plainly written combinations are their own normal forms
  (`PlanRevalidation.AgreementIsExact`). Sufficient, and checkable beforehand: beside references
  only checks, or base and single writes that are their own normal forms.
- The planner can refuse a combination of values each of which it accepted: an `enum` of objects
  beside a reference, though it fills in nothing, admits two writes alone and rejects them together
  (`ChoiceWitness.AcceptedSchemaRefusesCombination`). With only checks beside references such
  rejections and the size are the only refusals of the expansion (`PlannedSweeps.ExpansionIsExact`);
  with scalar choices at every node only the size is (`PlannedSweeps.ExpansionIsNeverRefused`).
- Different axis values can normalize to the same value, and then the planner refuses the sweep for
  its equal samples (`MergeWitness.AcceptedSchemaMergesValues`). With only checks beside references
  that, the expansion's refusals and a visual run are all it refuses of a sweep whose base and axis
  values could be normalized, barring a collision (`PlannerOutcome.SweepAnswers`).
- A sweep pointer that ends in `__proto__` assigns to the prototype: a scalar is stored nowhere
  and an object or array makes the write fail. The planner reads nothing back there and refuses
  (`PlannerOutcome.PlannedAxesAvoidPrototype`); in the revalidator such an axis repeats its expected
  samples unless it has one value, and is refused for that (`ExpansionLaws.CombinationsAreDistinct`,
  `PlanRevalidation.PayloadsAreDistinct`, `PlanRevalidation.PrototypeSweepRepeats`).
- A browser call can begin to wait for an approval after its grant was revoked or replaced. No
  approval and no revocation through the table reaches it then (`WakesExactlyInTable` in
  `BrowserAuthorityWaiting`); once no other call has the grant in hand, only a timer of that grant
  lets it go (`AbandonedCallWaitsOn`).
- The check that a page of run output is valid UTF-8 compares lengths, so a page passes when each
  ill-formed part has three bytes, as many as its replacement character
  (`OutputPager.InvalidPagePasses`).
- A `failure` audit fact may follow a mint without a consume, when the consume append failed;
  an `outcome` fact never does (`VisualAuthorityRuns.AuditTrailsAreLawful`).

## Model

| member | source | states |
|---|---|---|
| CanonicalJson.AssertString | backend/src/canonical-json-v2.ts:8-19 | the surrogate scan accepts exactly the strings without a lone surrogate |
| CanonicalJson.SortIsUnique | backend/src/canonical-json-v2.ts:41 | key order is forgotten: the keys of an object have one enumeration ascending by code unit |
| CanonicalJsonLaws.UnescapeUndoesEscape | backend/src/canonical-json-v2.ts:21-24 | reading back the escapes that quoting writes gives every string, of any code units |
| CanonicalJsonLaws.ParseUndoesPrint | backend/src/canonical-json-v2.ts:63-131 | in any delimited context, reading a printed canonical value yields that value and the rest of the text, or a refusal exactly when strict reading meets an unsafe integer |
| CanonicalJsonLaws.RoundTrip | backend/src/canonical-json-v2.ts:26-47 | parsing a printed value gives it back if and only if all its numbers are safe integers; otherwise the text is refused |
| CanonicalJsonLaws.CloneIsIdentity | backend/src/experiment-planner.ts:763 | cloning through the encoder and the built-in parser is the identity on every canonical value, unsafe integers included |
| CanonicalJsonLaws.EncodingDecidesEquality | backend/src/canonical-json-v2.ts:26-47 | two canonical values print the same text if and only if they are equal |
| CanonicalJsonLaws.ParsedIsCanonical | backend/src/canonical-json-v2.ts:62-131 | whatever the strict parser reads is canonical and has only safe integers, so its last line never throws |
| CanonicalJsonLaws.AcceptedTextHasCanonicalForm | backend/src/canonical-json-v2.ts:127-131 | every accepted text has a canonical form: printing the value and parsing again changes neither value nor text |
| CanonicalJsonReader.Reader.ReadString | backend/src/canonical-json-v2.ts:67-88 | the cursor loop over a string literal reads what the parsing function reads and leaves the cursor at its rest |
| CanonicalJsonReader.Reader.ReadValue | backend/src/canonical-json-v2.ts:89-126 | the recursive reader over one shared cursor agrees with the parsing function on value, rest and refusal |
| CanonicalJsonReader.Reader.ReadElements | backend/src/canonical-json-v2.ts:92-101 | the array loop, with its growing result, agrees with the parsing function |
| CanonicalJsonReader.Reader.ReadMembers | backend/src/canonical-json-v2.ts:102-116 | the object loop, with its set of keys taken, agrees with the parsing function |
| CanonicalJsonReader.ParseCanonicalJson | backend/src/canonical-json-v2.ts:63-131 | the cursor-driven parser computes the parse function on every text |
| CanonicalBytes.PrintIsWellFormed | backend/src/canonical-json-v2.ts:49 | a printed canonical value is a well-formed string, so its UTF-8 bytes lose nothing |
| CanonicalBytes.BytesDecideEquality | backend/src/experiment-planner.ts:761 | two canonical values have equal bytes if and only if they are equal |
| Utf8.EncodeIsInjective | backend/src/canonical-json-v2.ts:49 | no two sequences of code points have the same UTF-8 bytes (section 3 of RFC 3629) |
| JsonPointer.TwoPassesAreOne | backend/src/experiment-planner.ts:750-753 | replacing ~1 and then ~0 decodes a well-escaped token as the one-pass decoder of section 4 of RFC 6901 does |
| JsonPointer.DecodeUndoesEscape | backend/src/experiment-planner.ts:752-760 | escaping then unescaping gives back every token, and the escaped form is well formed and free of slashes |
| JsonPointer.EscapeUndoesDecode | backend/src/experiment-planner.ts:752-760 | a well-escaped token without slashes is the escape of what it decodes to |
| JsonPointer.ParseUndoesFormat | backend/src/experiment-planner.ts:740-755 | formatting a non-empty token list and parsing it gives the tokens back |
| JsonPointer.AcceptedPointerIsNormal | backend/src/experiment-planner.ts:740-755 | an accepted pointer is its own normalized form |
| JsonPointer.ReadDeclaredPointer | backend/src/experiment-planner.ts:700-717 | the loop along the tokens finds exactly the value that the recursive lookup finds |
| JsonPointer.ReadAfterWrite | backend/src/experiment-planner.ts:663-717 | reading a pointer after a successful write gives the value written, unless the pointer ends at the object prototype, where it reads nothing |
| JsonPointer.ReadAfterOtherWrite | backend/src/experiment-planner.ts:663-717 | a write does not disturb reads at pointers independent of it |
| JsonPointer.WritesCommute | backend/src/experiment-planner.ts:663-698 | writes at pointers neither of which is a token prefix of the other commute, failures included |
| SchemaProfile.AcceptsExactlyRanked | backend/src/experiment-planner.ts:427-438 | the depth-first reference check accepts a schema if and only if its child and reference edges can be ranked, and then visits nodes in topological order |
| SchemaValidation.ReferenceCheck.VisitReferences | backend/src/experiment-planner.ts:427-437 | the visit with its two mutable sets computes the specified order or refusal and leaves the set of nodes under way as it found it |
| SchemaValidation.CheckReferences | backend/src/experiment-planner.ts:424-438 | the whole check from the root computes the finishing order or refuses |
| SchemaValidation.AcceptedIsSound | backend/src/experiment-planner.ts:418-443 | an accepted schema carries a topological order of canonical nodes |
| Normalization.EdgesFall | backend/src/experiment-planner.ts:530-537 | along every child or reference edge of an accepted schema the rank falls: normalization terminates on every input |
| Normalization.ReferenceFalls | backend/src/experiment-planner.ts:547-554 | every reference of an accepted schema resolves to a node of lower rank: following references terminates |
| Normalization.SchemaSetIsSet | backend/src/experiment-planner.ts:623-661 | where the schema admits a write, it is the plain write at the same pointer |
| NormalizationLaws.NormalizedIsFilled | backend/src/experiment-planner.ts:539-609 | when references have only checking siblings, a normalized value has nothing left to fill in, at any depth |
| NormalizationLaws.FilledIsKept | backend/src/experiment-planner.ts:539-609 | on a value with nothing to fill in, normalization only checks, under any schema: where it succeeds it returns the value |
| NormalizationLaws.NormalizationIsIdempotent | backend/src/experiment-planner.ts:539-609 | when references have only checking siblings, normalizing a normalized value changes nothing where it succeeds |
| NormalizationLaws.NormalizedIsCanonical | backend/src/experiment-planner.ts:539-609 | what normalization returns is canonical JSON |
| NormalizationLaws.NormalizationIsAFixedPoint | backend/src/experiment-planner.ts:539-609 | when also enum and const constrain scalars only, normalization succeeds on its own output and returns it unchanged |
| NormalizationLaws.NormalizationIsLocal | backend/src/experiment-planner.ts:308-326 | when references have only checking siblings, writing a value into a filled base and normalizing equals writing, into the base, what is then read back at the pointer |
| NormalizationLaws.WriteStaysFilled | backend/src/experiment-planner.ts:308-326 | writing a filled value at a pointer of a filled base leaves nothing to fill in |
| NormalForms.NormalExactlyWhenFilled | backend/src/experiment-planner.ts:539-609 | under any schema, a value is its own normal form if and only if it is accepted and has nothing left to fill in |
| NormalForms.LayersAreNormal | backend/src/experiment-planner.ts:547-554 | under any schema, a value that is its own normal form is kept by the target of a reference and by its siblings alike |
| NormalForms.WriteStaysNormal | backend/src/experiment-planner.ts:308-326 | a value that gives a normal form where it is written into one base gives one in every normal value with the same containers along the pointer: always if enum and const offer scalars only at every node, otherwise wherever the result is accepted |
| NormalForms.SchemaSetAlongSpine | backend/src/experiment-planner.ts:623-661 | where the schema admits one write, it admits any at the same pointer of a value with the same containers along it |
| FixedPoints.NormalExactlyWhenChosen | backend/src/experiment-planner.ts:539-609 | under any schema, a value is its own normal form if and only if it passes, at every depth, the other checks with no default lacking, and every enum and const allows the part it applies to |
| FixedPoints.NormalizedIsComplete | backend/src/experiment-planner.ts:539-609 | when references have only checking siblings, the output of a normalization passes every check a second time but, possibly, enum and const |
| FixedPoints.FixedPointExactly | backend/src/experiment-planner.ts:539-609 | when references have only checking siblings, a second normalization returns the output of the first if every enum and const allows it, and refuses it otherwise |
| FixedPoints.WriteStaysComplete | backend/src/experiment-planner.ts:308-326 | under any schema, writes at pointers keep a value that passes all checks but enum and const so |
| NormalizationWitnessSchemas.AcceptedChoicesMustBeScalars | backend/src/experiment-planner.ts:564-587 | the scalar condition is needed: under an accepted schema with an enum of an object beside a defaulted property, normalization refuses its own output |
| NormalizationWitnessSchemas.AcceptedReferenceSiblingsMustOnlyCheck | backend/src/experiment-planner.ts:547-554 | the sibling condition is needed: under an accepted schema with a property beside a reference, a second normalization changes the value |
| PlannerLoops.CollectSeeds | backend/src/experiment-planner.ts:253-264 | the seed loop computes the specified list or the first error |
| PlannerLoops.CollectValues | backend/src/experiment-planner.ts:284-292 | comparing values by the bytes of their encoding computes the list specified by equality of values |
| PlannerLoops.PointersAreDisjoint | backend/src/experiment-planner.ts:296-302 | the nested loop over pairs of axes decides whether no two pointers overlap |
| PlannerLoops.PairSeeds | backend/src/experiment-planner.ts:361-365 | the nested loop gives combination k div n the seed k mod n |
| PlannerLoops.IdentifySamples | backend/src/experiment-planner.ts:99-106 | the loop with its set of identities computes the numbered samples or refuses a repeated identity |
| Sampling.ReadIsWellDeclared | backend/src/experiment-planner.ts:233-306 | a declaration that is read has unique seeds, unique axis values and disjoint pointers |
| Sampling.ReadUndoesWrite | backend/src/experiment-planner.ts:233-306 | reading the JSON of a well-formed declaration gives the declaration back |
| CartesianExpansion.Expansion.Visit | backend/src/experiment-planner.ts:350-358 | the recursion that pushes onto one list appends exactly the mixed-radix list of combinations, or throws exactly when one of them fails |
| CartesianExpansion.Expand | backend/src/experiment-planner.ts:350-359 | the expansion from the base lists all combinations in digit order, or throws exactly when one fails |
| CartesianExpansion.ExactCount | backend/src/experiment-planner.ts:334-340 | the floor-division guard refuses exactly when the product of all lengths exceeds the limit, and otherwise returns the product; the numbers held on the way are the partial products, all within the limit, up to the first that is not |
| ExpansionLaws.SweepReadsDigits | backend/src/experiment-planner.ts:398-407 | combination i holds at the pointer of axis j the value at digit j of i |
| ExpansionLaws.SweepKeepsTheRest | backend/src/experiment-planner.ts:398-407 | a combination agrees with the base at every pointer apart from the axes |
| ExpansionLaws.CombinationsAreDistinct | backend/src/experiment-planner.ts:396-408 | combinations are pairwise different if and only if every axis that assigns to the object prototype has a single value |
| ExpansionLaws.CombinationsAgreeExactly | backend/src/experiment-planner.ts:350-416 | the combinations the planner returned are those the revalidator writes if and only if each, as plainly written, is its own normal form |
| ExpansionLaws.PlannedIsDeclared | backend/src/experiment-planner.ts:350-359 | if base and single writes lack no default, then normalizing the combinations, where all are accepted, changes none of them, under any schema |
| ExpansionLaws.NormalWritesSweepStably | backend/src/experiment-planner.ts:350-359 | the same if base and single writes are their own normal forms, which a caller can check one value at a time |
| ExpansionLaws.SweepIsNormal | backend/src/experiment-planner.ts:350-359 | if also enum and const offer scalars only at every node and the schema admits a write at each pointer, all combinations are accepted and are their own normal forms |
| PlannedSweeps.NormalizedSweepIsNormal | backend/src/experiment-planner.ts:308-359 | with only checks beside references and only scalars in enum and const at every node: normalize the base, then each axis value alone, and write any combination at the disjoint pointers; it is admitted, accepted, and its own normal form |
| PlannedSweeps.ExpansionIsNeverRefused | backend/src/experiment-planner.ts:328-366 | under the same conditions the expansion of normalized axis values is refused for nothing but its size, and gives the payloads that plain writes give |
| PlannedSweeps.ExpansionIsExact | backend/src/experiment-planner.ts:328-366 | with only checks beside references, the expansion of a sweep of normalized values is refused if and only if it is too large or some enum or const rejects a single value or a plainly written combination |
| PlannerOutcome.PlannerAnswers | backend/src/experiment-planner.ts:61-115 | under any schema, the planner past its normalized configuration refuses exactly what the expansion refuses, a visual run whose sampling is not a single one, and equal payloads; barring a collision among the payloads it returns everything else, every digest being of canonical JSON |
| PlannerOutcome.PayloadsDifferExactly | backend/src/experiment-planner.ts:99-106 | the payloads of a normalized sweep are pairwise different if and only if normalization merged no two values of an axis |
| PlannerOutcome.SweepAnswers | backend/src/experiment-planner.ts:61-115 | with only checks beside references, what the planner answers to a sweep whose base and axis values could be normalized: refused for its size, as a visual run, for a violated enum or const, or for two values that normalization merged; returned otherwise, barring a collision; with scalar choices at every node no enum or const is violated |
| PlannerOutcome.PlannedAxesAvoidPrototype | backend/src/experiment-planner.ts:308-326 | no plan that the planner returns sweeps the object prototype, since nothing is read back there |
| MergeWitness.AcceptedSchemaMergesValues | backend/src/experiment-planner.ts:99-106 | under an accepted schema without references or choices, a well-declared sweep over an empty object and one with the default written out expands, and the planner refuses it for its equal payloads, whatever the hash |
| ChoiceWitness.AcceptedSchemaRefusesCombination | backend/src/experiment-planner.ts:564-587 | scalar choices are needed at every node, not only at those that fill in: an accepted schema with an enum of objects beside a reference keeps base and both single writes and refuses them together |
| PlanRevalidation.PayloadDigits | backend/src/experiment-planner.ts:396-416 | payload i*n+r holds the axis values at the digits of i and seed r of n, and elsewhere agrees with the base |
| PlanRevalidation.PayloadsAreDistinct | backend/src/experiment-planner.ts:385-416 | the expected payloads are pairwise different if and only if no axis sweeps the object prototype |
| PlanRevalidation.DuplicatesOnlyByCollision | backend/src/experiment-planner.ts:163-195 | barring a hash collision, the revalidator's duplicate-identity check refuses nothing but sweeps of the object prototype |
| PlanRevalidation.PrototypeSweepRepeats | backend/src/experiment-planner.ts:163-195 | a well-declared sweep of /__proto__ over two scalars has expected payloads, both equal to the base, and the revalidator accepts no plan for it |
| PlanRevalidation.AcceptedSweepsAvoidPrototype | backend/src/experiment-planner.ts:163-195 | no plan that the revalidator accepts sweeps the object prototype over several values |
| PlannerLaws.PlanJsonIsInjective | backend/src/experiment-planner.ts:107-115 | different plans are written as different JSON, well declared or not |
| PlanRevalidation.AgreementIsExact | backend/src/experiment-planner.ts:61-206 | the revalidator, which has no schema, accepts a plan the planner returned if and only if it is not a sweep or each of its combinations, as plainly written, is its own normal form; it then returns the plan unchanged |
| PlanRevalidation.AgreementExactlyWhenFilled | backend/src/experiment-planner.ts:61-206 | the same condition at the branch that decides it: the plan is accepted if and only if it is not a sweep or no plainly written combination lacks a default |
| PlanRevalidation.RevalidationAcceptsPlans | backend/src/experiment-planner.ts:61-206 | hence every plan that is not a sweep is accepted under any accepted schema, and every sweep where references have only checking siblings |
| PlanRevalidation.NormalWritesAreAccepted | backend/src/experiment-planner.ts:61-206 | and under any accepted schema every plan whose base and single axis writes are their own normal forms |
| PlanRevalidation.PlansAreAccepted | backend/src/experiment-planner.ts:61-206 | the exact condition and the guard on the schema for the planner as called, schema validation included; enum and const are not restricted |
| AgreementWitness.AcceptedSchemaBreaksAgreement | backend/src/experiment-planner.ts:61-206 | the condition is needed: under an accepted schema whose reference has a defaulting sibling, the planner returns a plan for one swept value that the revalidator refuses, whatever the hash and the limits |
| PlanRevalidation.AcceptedIsCanonicalCopy | backend/src/experiment-planner.ts:122-206 | an accepted input is exactly the JSON of the plan returned, with digests, count and samples recomputed from its configuration |
| PlanRevalidation.RevalidationIsExact | backend/src/experiment-planner.ts:163-205 | two accepted plans with the same configuration are equal |
| Sorting.SortFindsDuplicates | backend/src/diagnostic-event-cursor.ts:215-225 | sorting and comparing neighbours accepts exactly the lists without repetitions |
| TextDecoding.DecodeUndoesEncode | backend/src/diagnostic-event-cursor.ts:328-330 | decoding the UTF-8 of a well-formed text gives the text back |
| TextDecoding.DecodedReencodes | backend/src/diagnostic-event-cursor.ts:328-330 | bytes are decoded only where encoding the text gives the same bytes |
| TextDecoding.StrictBase64IsExact | backend/src/diagnostic-event-cursor.ts:366-372 | the strict base64url decoder reads exactly the encoder's spelling of each non-empty byte string |
| EventCursorLaws.NormalStaysNormal | backend/src/diagnostic-event-cursor.ts:204-264 | normalizing a normalized context returns it |
| EventCursorLaws.FilterOrderIsForgotten | backend/src/diagnostic-event-cursor.ts:204-238 | the order in which filters are listed does not matter |
| EventCursorLaws.SameContextIsEquality | backend/src/diagnostic-event-cursor.ts:361-364 | comparing encoded contexts decides their equality |
| EventCursorLaws.DecodesExactly | backend/src/diagnostic-event-cursor.ts:307-326 | a token decodes to a payload if and only if it is the signed spelling of that payload within both size limits |
| EventCursorLaws.ValidatedIsItsClaims | backend/src/diagnostic-event-cursor.ts:328-359 | a payload that validates is the payload built from its claims |
| EventCursorLaws.AcceptedTokenIsIssued | backend/src/diagnostic-event-cursor.ts:133-187 | every token that verification accepts is the one token issue returns, at the claimed time and lifetime, for the expected context |
| EventCursorLaws.IssuedTokenVerifies | backend/src/diagnostic-event-cursor.ts:133-187 | an issued token verifies to the issued claims exactly when the normalized contexts are equal, the key epoch matches and issued <= now < expiry |
| OutputPager.BoundedUtf8Page | backend/src/agent-turn-runtime.ts:2339-2356 | the two loops end the page at the last boundary within the limit, or at the first one past it; the text is the bytes decoded with replacement characters, and the page is refused exactly if some part of it that is no code point has not as many bytes as its replacement |
| LossyDecoding.LossyLength | backend/src/agent-turn-runtime.ts:2351-2354 | decoding with replacement never shortens, and keeps the byte length exactly if every maximal ill-formed part has three bytes |
| OutputPager.InvalidPagePasses | backend/src/agent-turn-runtime.ts:2351-2354 | so the check lets some invalid pages pass: three bytes of a code point of four |
| OutputPager.PageEndIsUnique | backend/src/agent-turn-runtime.ts:2344-2350 | that end is determined by the bytes, the offset and the limit |
| OutputPager.BoundariesAreStarts | backend/src/agent-turn-runtime.ts:2344-2350 | in valid UTF-8 the boundaries are exactly the starts of code points and the end |
| OutputPager.PageIsWholeCodePoints | backend/src/agent-turn-runtime.ts:2339-2356 | a page of valid UTF-8 makes progress, ends at a code point, exceeds the limit only when it is exactly one code point, and is as long as the limit allows |
| OutputPager.PageIsRenderable | backend/src/agent-turn-runtime.ts:2351-2354 | a page of valid UTF-8 never fails the check that its text encodes to as many bytes |
| OutputPager.ReadAll | backend/src/agent-turn-runtime.ts:961-976 | reading valid UTF-8 from offset 0 by the next offset is never refused and returns the whole output, as text and as bytes, in whole code points |
| AgentMcp.AgentMcpServer.Issue | backend/src/agent-mcp.ts:490-553 | a grant is issued exactly when its implicit budgets fit its scope, and then only it is added |
| AgentMcp.AgentMcpServer.Revoke | backend/src/agent-mcp.ts:555-561 | a revoked capability loses its grant and everything counted for it |
| AgentMcp.AgentMcpServer.RevokeAll | backend/src/agent-mcp.ts:573-579 | nothing is left of any grant |
| AgentMcp.AgentMcpServer.RevokeConversation | backend/src/agent-mcp.ts:555-565 | all grants of the conversation, and all that was counted for them, are gone |
| AgentMcp.AgentMcpServer.RevokeSessionGeneration | backend/src/agent-mcp.ts:567-571 | the same for one session generation of a conversation |
| AgentMcp.AgentMcpServer.HasActiveConversation | backend/src/agent-mcp.ts:617-627 | true exactly when a live grant is in one of the conversations; only expired grants are dropped |
| AgentMcp.AgentMcpServer.ActiveGrant | backend/src/agent-mcp.ts:820-824 | an expired grant is revoked and not returned |
| AgentMcp.AgentMcpServer.AuthorizeConsequentialOperation | backend/src/agent-mcp.ts:581-615 | the authorization segment: refused, repeated, replaced, or revoking a competing capability |
| AgentMcp.AgentMcpServer.HandleToolCall | backend/src/agent-mcp.ts:629-706 | the admission segment up to the executor: its decision and the whole new state |
| AgentMcp.AgentMcpServer.FinishToolCall | backend/src/agent-mcp.ts:704-713 | settling a call only clears its in-flight mark |
| AgentMcpRuns.ApplyKeepsInvariant | backend/src/agent-mcp.ts:555-713 | every segment of any interleaving keeps counters, commitments and the log of calls in agreement |
| AgentMcpRuns.AdmissionIsBounded | backend/src/agent-mcp.ts:645-706 | in every run the executor sees at most one permitted call per capability, whose digest is the one authorized last; an implicitly allowed tool is called at most its budget |
| AgentMcpRuns.ReplacementIsExact | backend/src/agent-mcp.ts:581-615 | another commitment takes effect exactly before consumption and only if none is set or the set one was rejected; a competing one revokes the capability |
| AgentMcpRuns.ConsumedCommitmentIsFinal | backend/src/agent-mcp.ts:581-615 | once the operation is consumed, no later event changes the commitment |
| AgentMcpRuns.DenialSpendsNothing | backend/src/agent-mcp.ts:640-694 | a call that is denied spends no budget and consumes nothing of any remaining grant |
| AgentMcpRuns.RevokedNeverCallsAgain | backend/src/agent-mcp.ts:555-561 | after revocation a capability never starts another call |
| AgentMcpRuns.PermittedCallRunsOnce | backend/src/agent-mcp.ts:660-706 | the permitted call runs with its normalized input, and any consequential call after it is refused |
| AgentMcpRuns.CommitmentNamesOneCall | backend/src/agent-tools.ts:173-190 | absent a hash collision a commitment names one tool and one argument value |
| BrowserAuthority.BrowserAgentAuthority.PrepareDormant | backend/src/browser-agent-authority.ts:60-95 | preparing refuses a conflicting grant, revokes the one it replaces, or installs the new one |
| BrowserAuthority.BrowserAgentAuthority.ActiveRecord | backend/src/browser-agent-authority.ts:477-491 | an expired grant is revoked instead of returned |
| BrowserAuthority.BrowserAgentAuthority.ApprovePermission | backend/src/browser-agent-authority.ts:160-188 | the segment after the first await: mismatch revokes; otherwise the approval is stored and a waiting call let go |
| BrowserAuthority.BrowserAgentAuthority.ConfirmClaim | backend/src/browser-agent-authority.ts:172-188 | after the claim: a stale grant is revoked, a current one gets its control epoch and releases the waiting call |
| BrowserAuthority.BrowserAgentAuthority.ConfirmLease | backend/src/browser-agent-authority.ts:233-244 | after an opening: a stale grant is revoked, a current one gets its control epoch |
| BrowserAuthority.BrowserAgentAuthority.Release | backend/src/browser-agent-authority.ts:183-188 | the call waiting for an operation is let go, once |
| BrowserAuthority.BrowserAgentAuthority.RequestOperation | backend/src/browser-agent-authority.ts:198-211 | an unapproved operation waits on one shared promise, unless its tool has another approval |
| BrowserAuthority.BrowserAgentAuthority.StartOperation | backend/src/browser-agent-authority.ts:212-234 | the approval is used up and one unit paid in the segment that starts the action |
| BrowserAuthority.BrowserAgentAuthority.Revoke | backend/src/browser-agent-authority.ts:462-475 | revocation ends the grant, its approvals and its table entry and rejects all its waiting calls |
| BrowserAuthority.BrowserAgentAuthority.RevokeConversation | backend/src/browser-agent-authority.ts:389-412 | all grants of the conversation in the table are revoked, as a takeover also does first |
| BrowserAuthority.BrowserAgentAuthority.FinishOperation | backend/src/browser-agent-authority.ts:364-382 | a grant without budget, or whose control is lost, is revoked |
| BrowserAuthorityRuns.ApplyKeepsInvariant | backend/src/browser-agent-authority.ts:152-382 | every step of every suspended call, and every revocation, keeps budgets, approvals and waiting calls in agreement |
| BrowserAuthorityRuns.ActionsAreBounded | backend/src/browser-agent-authority.ts:152-234 | in every run the remaining budget is the initial one less the calls charged, which never exceed it, nor the approvals of their operation; only charged calls act |
| BrowserAuthorityRuns.OneApprovalOneCall | backend/src/browser-agent-authority.ts:205-221 | with one approval, two calls waiting for it cannot both proceed |
| BrowserAuthorityRuns.WaitingCallsWake | backend/src/browser-agent-authority.ts:426-475 | while a call waits its entry is with its grant: releasing the entry resolves its promise, revoking the grant rejects it |
| BrowserAuthorityWaiting.WakesExactlyInTable | backend/src/browser-agent-authority.ts:160-188 | an approval through the key of its grant, whatever its terms, a revocation of its conversation, and one of all grants each let a waiting call go if and only if its grant is the one in the table; the timer of its own entry always does |
| BrowserAuthorityWaiting.AbandonedCallWaitsOn | backend/src/browser-agent-authority.ts:389-460 | once its grant has left the table and no other call has the grant in hand, a waiting call waits on in every continuation in which no timer of the grant revokes it |
| BrowserAuthorityWaiting.LateCallIsAbandoned | backend/src/browser-agent-authority.ts:198-211 | such calls arise: a call that found its grant and resumes after the revocation of that grant registers a fresh promise on it and waits |
| BrowserAuthorityWaiting.SomeCallIsAbandoned | backend/src/browser-agent-authority.ts:198-211 | the shortest run with such a call: prepare, start the call, revoke, resume the call |
| BrowserAuthorityWaiting.RunIsOrderly | backend/src/browser-agent-authority.ts:60-95 | in every run the table holds grants under their own keys and none that is revoked, and no two entries share a promise |
| BrowserAuthorityRuns.RevokedGrantNeverActs | backend/src/browser-agent-authority.ts:462-499 | after revocation nothing is charged to the grant and none of its suspended calls acts |
| BrowserAuthorityRuns.ApprovedOperationIsCharged | backend/src/browser-agent-authority.ts:168-221 | an approval of a live grant with budget lets its operation through exactly once |
| VisualAuthority.VisualAgentAuthority.MintCapability | backend/src/agent-visual-authority.ts:405-464 | mint sweeps, checks and records before the grant exists |
| VisualAuthority.VisualAgentAuthority.ConsumeCapability | backend/src/agent-visual-authority.ts:466-512 | consumption precedes every check; a failed check is recorded as terminal |
| VisualAuthority.VisualAgentAuthority.RecordOutcome | backend/src/agent-visual-authority.ts:514-532 | an outcome needs a handle to a consumed, unfinished grant |
| VisualAuthority.VisualAgentAuthority.Terminal | backend/src/agent-visual-authority.ts:588-605 | a terminal fact ends the grant only if it is appended, and only once |
| VisualAuthority.VisualAgentAuthority.SweepExpired | backend/src/agent-visual-authority.ts:607-615 | exactly the expired grants are revoked |
| VisualAuthority.VisualAgentAuthority.Acquire | backend/src/agent-visual-authority.ts:634-658 | a call is admitted below the limit and while its conversation is idle |
| VisualAuthority.VisualAgentAuthority.Release | backend/src/agent-visual-authority.ts:660-672 | a release takes back what was acquired |
| VisualAuthority.VisualAgentAuthority.RevokeMatching | backend/src/agent-visual-authority.ts:674-701 | the loop over the registry aborts, consumes and ends every matching grant whatever the store answers |
| VisualAuthority.VisualAgentAuthority.BeginCall | backend/src/agent-visual-authority.ts:234-265 | acquire, mint and consume up to the await, or complete failure with everything released |
| VisualAuthority.VisualAgentAuthority.EndCall | backend/src/agent-visual-authority.ts:281-313 | after the await: outcome or failure, and release in every case |
| VisualAuthorityRuns.ApplyKeepsInvariant | backend/src/agent-visual-authority.ts:234-701 | every segment keeps trails and counters in order, for any answers of the store |
| VisualAuthorityRuns.AuditTrailsAreLawful | backend/src/agent-visual-authority.ts:578-605 | in every run the facts of a grant are one mint, at most one consume, at most one terminal fact with nothing after it, and an outcome only after a consume |
| VisualAuthorityRuns.CountersAgree | backend/src/agent-visual-authority.ts:634-672 | in every run both counters equal their map sizes within their limits, a conversation is counted exactly while its call runs, and never has two calls running |
| VisualAuthorityRuns.RevokedCallNeverSucceeds | backend/src/agent-visual-authority.ts:265-313 | a running call whose grant is revoked never succeeds |
| VisualAuthorityRuns.UndisturbedCallSucceeds | backend/src/agent-visual-authority.ts:234-313 | a call nothing disturbs succeeds and leaves the complete trail |
| FrameCapability.BrowserFrameCapability.Bootstrap | backend/src/browser-frame-capability.ts:224-248 | a new browser session clears everything issued before |
| FrameCapability.BrowserFrameCapability.FinishIssue | backend/src/browser-frame-capability.ts:303-338 | a capability is issued only to the browser session that asked and still exists |
| FrameCapability.BrowserFrameCapability.BeginRedeem | backend/src/browser-frame-capability.ts:348-357 | the nonce is spent before the first await |
| FrameCapability.BrowserFrameCapability.FinishRedeem | backend/src/browser-frame-capability.ts:363-401 | a session is given only while route, nonce lifetime and browser session still hold; otherwise the route goes |
| FrameCapability.BrowserFrameCapability.BeginProxy | backend/src/browser-frame-capability.ts:416-433 | a request enters only with the cookie of an open session and below the concurrency limit |
| FrameCapability.BrowserFrameCapability.InspectProxy | backend/src/browser-frame-capability.ts:435-444 | a failed inspection removes the route; a stale capability ends the request |
| FrameCapability.BrowserFrameCapability.BeginWebSocket | backend/src/browser-frame-capability.ts:526-562 | a registration is added within the policy, with an owner new to the attempt |
| FrameCapability.BrowserFrameCapability.CheckWebSocket | backend/src/browser-frame-capability.ts:574-596 | a check that fails releases the registration |
| FrameCapability.BrowserFrameCapability.ReleaseWebSocket | backend/src/browser-frame-capability.ts:759-766 | a release takes the registration out of all three places, once |
| FrameCapability.BrowserFrameCapability.RevokeCapability | backend/src/browser-frame-capability.ts:745-757 | revocation closes every socket of a snapshot, whatever the owners release meanwhile, and removes route and nonce |
| FrameCapability.BrowserFrameCapability.Clear | backend/src/browser-frame-capability.ts:677-686 | clearing revokes every route and empties all tables |
| FrameCapability.BrowserFrameCapability.Revoke | backend/src/browser-frame-capability.ts:641-659 | revocation reaches exactly the matching capabilities that have a route |
| FrameCapability.BrowserFrameCapability.LeaveProxy | backend/src/browser-frame-capability.ts:507-509 | a request that ends is counted out |
| FrameCapability.BrowserFrameCapability.MarkOpen | backend/src/browser-frame-capability.ts:633-636 | a WebSocket is marked open only while current, and released otherwise |
| FrameCapabilityRuns.ApplyKeepsInvariant | backend/src/browser-frame-capability.ts:224-686 | every segment keeps nonces, sessions, requests in flight and sockets in agreement |
| FrameCapabilityRuns.OneSessionPerNonce | backend/src/browser-frame-capability.ts:341-402 | in every run a nonce yields at most one broker session |
| FrameCapabilityRuns.RevocationIsFinal | backend/src/browser-frame-capability.ts:641-686 | after revocation, clearing or a new browser session, a capability issued before gets no session, no response and no passed WebSocket check |
| FrameCapabilityRuns.GoneIsFinal | backend/src/browser-frame-capability.ts:730-757 | a capability whose route was removed for any reason is never live again |
| FrameCapabilityRuns.SocketIndexIsConsistent | backend/src/browser-frame-capability.ts:548-563 | in every run each registration in an attempt's index is unreleased, filed under its own attempt and held by its capability; owners differ; one policy bounds their number |
| FrameCapabilityRuns.ReleasedKeeps | backend/src/browser-frame-capability.ts:745-766 | a release, also one re-entered from an owner's close, keeps the socket index consistent and touches nothing else |
| FrameCapabilityRuns.InFlightIsCounted | backend/src/browser-frame-capability.ts:430-509 | in every run the in-flight counter is the number of requests under way, at most eight |
| FrameCapabilityRuns.RedeemedSessionOpens | backend/src/browser-frame-capability.ts:341-433 | a nonce redeemed in time gives a session whose cookie, and no other, opens the proxy |
| WebSocketBridge.Relay.Forward | backend/src/browser-websocket-bridge.ts:355-389 | accepting a frame queues it, pauses the source and flushes, or finishes with the code of the failed test |
| WebSocketBridge.Relay.Flush | backend/src/browser-websocket-bridge.ts:370-387 | the oldest frame is sent, the source resumed, or the relay finished |
| WebSocketBridge.Relay.EndSend | backend/src/browser-websocket-bridge.ts:381-386 | the callback of a send continues with the next frame or finishes |
| WebSocketBridge.Relay.Finish | backend/src/browser-websocket-bridge.ts:333-339 | the first finish sets the code and shuts the owner down; later ones do nothing |
| WebSocketBridge.RelayKeepsOrder | backend/src/browser-websocket-bridge.ts:329-391 | in every run frames are sent in the order accepted; while open, sent and queued are what was accepted, bytes are counted and bounded, and the source is paused exactly while the one send is outstanding |
| WebSocketBridge.ClosedIsFinal | backend/src/browser-websocket-bridge.ts:333-339 | after the relay has closed nothing more is sent and its code stands |
| WebSocketBridge.QueueDrains | backend/src/browser-websocket-bridge.ts:370-388 | callbacks that succeed drain the queue, so that everything accepted is sent and the source resumed, if and only if each frame at its turn finds its destination open with room for it; the first that does not closes the relay with 1013 |
| WebSocketOwner.BrowserWebSocketOwner.Shutdown | backend/src/browser-websocket-bridge.ts:97-118 | shutting down closes open sockets with the code and destroys at once or after the timer; repeated calls do nothing |
| WebSocketOwner.BrowserWebSocketOwner.SetOnClosed | backend/src/browser-websocket-bridge.ts:79-83 | a callback set after the end runs at once |
| WebSocketOwner.BrowserWebSocketOwner.AttachChild | backend/src/browser-websocket-bridge.ts:70-77 | a second child, or one that comes after the end, is terminated |
| WebSocketOwner.BrowserWebSocketOwner.Notify | backend/src/browser-websocket-bridge.ts:120-124 | the callback runs at most once |
| WebSocketOwner.BrowserWebSocketOwner.FireTimer | backend/src/browser-websocket-bridge.ts:107-117 | the delayed end destroys everything when its timer fires |
| WebSocketOwner.BrowserWebSocketOwner.Bind | backend/src/browser-websocket-bridge.ts:59-68 | binding after the end, or to another child, ends both sockets |
| WebSocketOwner.EndsOnce | backend/src/browser-websocket-bridge.ts:97-124 | in every run the raw socket is destroyed and the release callback run at most once, and after the end a set callback has run or runs with the pending timer |

## Left out

- Numbers with a fraction or an exponent: floating-point printing and parsing are not modelled;
  a text with such a number is outside the model, and a cursor payload with one is refused, as the
  source's integer checks and canonical re-encoding refuse it.
- The sign of zero: the text `-0` reads as the number zero, which prints as `0`. The source keeps
  negative zero in some places until it prints it as `0`.
- Identity of schema nodes: the source's reference check keeps objects in its sets, the model keeps
  JSON values. Two nodes with equal values have equal edges, so a cycle through one is a cycle
  through the other and the same schemas are accepted; the number of visits can differ.
- Values that JSON cannot express (undefined members, cyclic or non-plain objects, functions)
  and arguments of the wrong JavaScript type beyond those that arrive as parsed JSON.
- Error messages and paths; in normalization and in the cursor codec every thrown error is one
  result. `exactRecord` compares joined key lists, so a forged key containing a line break gives
  another error code there than in the model; both refuse.
- A `required` list that is not a list of strings, on a node the keyword walk does not reach, is
  modelled as refusal.
- The order in which schema children are visited is by key, not by insertion; acceptance does
  not depend on it.
- `setPointer` and `setDeclaredPointer` write in place into a clone; the model returns a new
  value, so aliasing inside one call is not represented. `deepFreeze` is not modelled.
- Prototype properties other than `__proto__`.
- EventCursorLaws.IssuedTokenVerifies: timing-safe comparison is plain equality, and a key epoch
  or secret change is a different codec.
- AgentMcp.AgentMcpServer.HandleToolCall: admission only; JSON-RPC framing, tool schemas, result
  shaping and the mapping of errors to codes are not modelled, and input validation is a function
  parameter. A grant handed to the executor is a value, so later changes of its commitment are
  not visible through it.
- BrowserAuthority.BrowserAgentAuthority.StartOperation: which broker action follows is one
  event; the projection of the remaining budget to the broker and the operation results are not
  modelled.
- Read-only queries (`hasActiveScope`, `pendingForTurn`) and the wrappers that look a pending
  permission up by its identifier before approving or rejecting it; rejecting is revocation.
- "At most one browser grant per conversation" is not claimed: preparing a grant awaits between
  its check and its write.
- VisualAuthority.VisualAgentAuthority.BeginCall: the byte limit on conversation identifiers and
  the check of outcome codes are not modelled; timers are events that may abort a call at any time.
- An audit append that both throws and stores is not modelled; an append that throws stores nothing.
- FrameCapability.BrowserFrameCapability.BeginProxy: HTTP header, path and origin checks, and the
  content of responses, are not modelled; a nonce and its route are identified with their capability.
- FrameCapability.BrowserFrameCapability.RevokeCapability: an owner's close may release any
  registrations before it returns, but may not call other methods of the service.
- WebSocketBridge.Relay.Forward: the idle and expiry timers are arbitrary finish events; a send
  callback that runs inside the send is the event right after it.
- The WebSocket handshake, header and subprotocol checks of the bridge.
- Process supervision, file system, network listeners, conversation storage, natural-language
  routing and the web front end: thin layers over input and output with no specification to prove.
