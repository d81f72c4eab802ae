# Biometric data-space exchange: a Dafny model of its deterministic core

The system lets a provider holding biometric evidence (face, voice and fingerprint
samples with case metadata) and a consumer who requests it exchange encrypted evidence
bundles through per-participant storage pods. Matching runs on pseudonymous biometric
hashes, and the requests and results are tracked in a case-management service. This
project models the code that decides what is sent, stored, matched and answered around
the network calls. It covers four components.

- **Connector (Java).** It packs and unpacks the ZIP evidence bundle: the three unpackers,
  the "latest evidence" choice and the ZIP signature check. It builds the access-request
  and access-response envelopes and renders the wrapped key as `0x` plus lower-case hex.
  It frames the multipart requests to the biometric encryptor and groups an uploaded
  profile for indexing. It also holds the participant registry, the access-request form
  and the local matching and match-initiation services.
  Modules: `EvidenceArchive`, `EncryptorProtocol`, `DisplayEvidence`, `CriminalProfile`,
  `ArtifactHandler`, `TensorEcc`, `ConnectorRegistry`, `DspRequestDomain`, `DspRequest`,
  `DspResponse`, `MatchLocal`, `MatchInit`.
- **Fuzzy extractor (Python).** It packs bits and bytes, fits a reading to the code length,
  forms XOR helper data and fits the key length. It finds minutiae by crossing number and
  builds the fingerprint descriptor. It runs the encryption and decryption flows with a
  key check. Modules: `FuzzyExtraction`, `FingerBioUtils`, `KeyProcess`.
- **Large-scale indexer (Python).** It covers the index, hash and search handlers and the
  per-pseudonym score merge. It parses the three comparators' catalogues, filters them by
  sensitivity, keeps each id's best score and cuts the descending top N. It appends new
  catalogue lines and splits the upload URL. It also models the `Dataset` batching state
  machine of the deep hashing network.
  Modules: `IndexerApi`, `Catalogue`, `CatalogueCache`, `VoiceComparator`,
  `FingerComparator`, `FaceComparator`, `DatasetBatching`.
- **Case-management API (JavaScript).** It lists, gets and deletes open and closed cases,
  and does the paging arithmetic. It validates evidence and updates, merges intermediate
  results three ways and retries updates a bounded number of times. It matches a received
  response to its request and rewrites evidence ids to URLs. It dispatches authentication.
  Modules: `CmsCommon`, `CaseService`, `HistoryService`, `CaseController`,
  `Uc3Controller`, `Auth`.

Shared helpers are in `Wrappers`, `Strings`, `Octets`, `Json` and `Scans`. `Scans`
holds the left fold with a sticky exception that the unpacking loops are proved against.

Everything the code hands to a library or a remote service becomes a function-typed
parameter whose answers the model takes as given. This covers HTTP, the ZIP reader and
writer, MIME sniffing, Base64, JSON parsing, AES, the BCH code, the neural networks,
random shuffles, uuids and the clock. The model then fixes what the code does with those
answers. Loops that build a result step by step are methods with loop invariants, proved
equal to a specification function on prefixes. Objects whose fields the code updates are
classes: the registry, the access-request form, the ZIP output stream, the multipart body,
the artifact handler, the `Dataset` batcher and the indexer's catalogue cache. Exceptions are `Err` values that carry the
exception's name. Where the code keeps a partial result after a catch, the model keeps the
same partial result.

Some behaviour of the code is easy to misread, and the model keeps it as written:
- Only the evidence display (`DisplayEvidenceServiceImpl`) checks the ZIP signature. The
  profile export and the artifact handler unpack without the check.
- Unpacking does not give a packed bundle back unchanged. The unpackers keep no file
  names, and the display keeps only the last entry per category. The model proves what
  the code computes instead: the per-category data URIs and the case text, in archive
  order, with later entries overriding earlier ones.
- The access response always carries the fixed duration 600. The model keeps this.
- `setDescriptiveText` writes the voiceprint score field, and the model keeps that.
- `caseController.createCase` tests the template with the `in` operator. That operator
  also accepts keys inherited from `Object.prototype`, such as "toString"
  (`CaseController.InheritedTemplateNotRefused`).
- `updateCase` is documented with a `maxRetries` bound. The recursive retry drops the
  bound (see Findings).

## Model

| member | source | states |
|---|---|---|
| TensorEcc.ContentTypeByExtension | DataspaceConnector/src/ecc/src/main/java/it/eng/idsa/businesslogic/util/TensorECC.java:100-104 | when sniffing fails, ".flac" gives audio/flac, ".tif"/".tiff" image/tiff, anything else application/octet-stream |
| TensorEcc.PathSegments | DataspaceConnector/src/ecc/src/main/java/it/eng/idsa/businesslogic/util/TensorECC.java:75-82 | for a name with a '/' not ending in '/', Java's split gives at least two parts: the folder before the first '/' and the file name after the last |
| TensorEcc.ClassifiedParts | DataspaceConnector/src/ecc/src/main/java/it/eng/idsa/businesslogic/util/TensorECC.java:63-107 | an entry is kept exactly when it is not a directory and contains '/', under the folder before the first '/', named after the last, with its bytes |
| TensorEcc.PrepareBiometricFilesList | DataspaceConnector/src/ecc/src/main/java/it/eng/idsa/businesslogic/util/TensorECC.java:55-123 | the loop over the archive computes the grouping function: the folder-to-files map, or the IOException rethrown |
| TensorEcc.GroupedMeaning | DataspaceConnector/src/ecc/src/main/java/it/eng/idsa/businesslogic/util/TensorECC.java:109-111 | a folder is a key exactly when some file lies in it, and its list is exactly its files in archive order |
| TensorEcc.EncodeBiometricSample | DataspaceConnector/src/ecc/src/main/java/it/eng/idsa/businesslogic/util/TensorECC.java:198-208 | IllegalArgumentException exactly for a null file or content, otherwise the Base64 text of the content |
| TensorEcc.IndexGroup | DataspaceConnector/src/ecc/src/main/java/it/eng/idsa/businesslogic/util/TensorECC.java:277-282 | sends one indexer body per file of the group, in order, of the given type |
| TensorEcc.IndexBiometricSamples | DataspaceConnector/src/ecc/src/main/java/it/eng/idsa/businesslogic/util/TensorECC.java:269-303 | answers true exactly when grouping succeeds, after sending the face, fingerprint and voice groups in that order; nothing is sent on failure |
| TensorEcc.BodiesCount | DataspaceConnector/src/ecc/src/main/java/it/eng/idsa/businesslogic/util/TensorECC.java:128-176 | a group of files with content sends exactly one body per file, carrying that file's Base64 content |
| TensorEcc.FilesInHaveContent | DataspaceConnector/src/ecc/src/main/java/it/eng/idsa/businesslogic/util/TensorECC.java:86-93 | every grouped file has content (what was read from the archive) |
| TensorEcc.GroupBodies | DataspaceConnector/src/ecc/src/main/java/it/eng/idsa/businesslogic/util/TensorECC.java:273-296 | a folder's group sends as many bodies as the folder has files, each of the group's biometric type |
| TensorEcc.DispatchedFiles | DataspaceConnector/src/ecc/src/main/java/it/eng/idsa/businesslogic/util/TensorECC.java:273-297 | the indexer receives one body per file of the face, fingerprint and voice folders and no other folder, each typed image, fingerprint or voice |
| TensorEcc.StoreSuspectProfile | DataspaceConnector/src/ecc/src/main/java/it/eng/idsa/businesslogic/util/TensorECC.java:435-495 | a null profile fails before any upload; otherwise the upload goes to the user's suspects folder with the id as index and file name "<id>.zip.enc", and the answer is true exactly when the post succeeds |
| TensorEcc.StoredWhereFetched | DataspaceConnector/src/ecc/src/main/java/it/eng/idsa/businesslogic/util/TensorECC.java:444-466 | the folder the profile is uploaded to, followed by the stored file name, is the URL the provider later downloads the profile from |
| ConnectorRegistry.TensorConnectorRegistry.constructor | DataspaceConnector/src/be/src/main/java/it/eng/idsa/dataapp/service/TENSORConnectorRegistry.java:10 | a new registry holds no connector |
| ConnectorRegistry.TensorConnectorRegistry.AddConnector | DataspaceConnector/src/be/src/main/java/it/eng/idsa/dataapp/service/TENSORConnectorRegistry.java:13-17 | a non-null connector with a non-null id replaces the entry of its id; anything else leaves the registry unchanged; every lookup of another id is unchanged |
| ConnectorRegistry.TensorConnectorRegistry.GetConnectorById | DataspaceConnector/src/be/src/main/java/it/eng/idsa/dataapp/service/TENSORConnectorRegistry.java:20-22 | the connector registered under the id, and null exactly when there is none |
| ConnectorRegistry.TensorConnectorRegistry.GetAllConnectors | DataspaceConnector/src/be/src/main/java/it/eng/idsa/dataapp/service/TENSORConnectorRegistry.java:75-77 | every registered connector under its id, agreeing with getConnectorById on every id; in a valid registry each is keyed by its own id |
| ConnectorRegistry.TensorConnectorRegistry.Projection | DataspaceConnector/src/be/src/main/java/it/eng/idsa/dataapp/service/TENSORConnectorRegistry.java:33-72 | each `get<Field>ById` gives null for an unknown id, else that field of the registered connector |
| ConnectorRegistry.TensorConnectorRegistry.GetIdByPod | DataspaceConnector/src/be/src/main/java/it/eng/idsa/dataapp/service/TENSORConnectorRegistry.java:24-31 | an id returned is registered with that pod; null means no connector has the pod; the NullPointerException arises only when some connector has a null pod, and never when none has |
| ConnectorRegistry.Lookup | DataspaceConnector/src/be/src/main/java/it/eng/idsa/dataapp/service/TENSORConnectorRegistry.java:33-72 | a lookup with a null id finds nothing; otherwise it is the registry's field lookup |
| DspRequestDomain.DspRequestRequest.Empty | DataspaceConnector/src/be/src/main/java/it/eng/idsa/dataapp/domain/DspRequestRequest.java:17-19 | the no-argument constructor leaves every field null |
| DspRequestDomain.DspRequestRequest.constructor | DataspaceConnector/src/be/src/main/java/it/eng/idsa/dataapp/domain/DspRequestRequest.java:21-41 | the full constructor stores each argument in its field |
| DspRequestDomain.DspRequestRequest.SetProviderId | DataspaceConnector/src/be/src/main/java/it/eng/idsa/dataapp/domain/DspRequestRequest.java:47-49 | sets the provider id and nothing else |
| DspRequestDomain.DspRequestRequest.SetConsumerId | DataspaceConnector/src/be/src/main/java/it/eng/idsa/dataapp/domain/DspRequestRequest.java:55-57 | sets the consumer id and nothing else |
| DspRequestDomain.DspRequestRequest.SetSuspectProfileId | DataspaceConnector/src/be/src/main/java/it/eng/idsa/dataapp/domain/DspRequestRequest.java:63-65 | sets the suspect profile id and nothing else |
| DspRequestDomain.DspRequestRequest.SetFacialImageSimilarityScore | DataspaceConnector/src/be/src/main/java/it/eng/idsa/dataapp/domain/DspRequestRequest.java:71-73 | sets the face score and nothing else |
| DspRequestDomain.DspRequestRequest.SetFingerprintSimilarityScore | DataspaceConnector/src/be/src/main/java/it/eng/idsa/dataapp/domain/DspRequestRequest.java:79-81 | sets the fingerprint score and nothing else |
| DspRequestDomain.DspRequestRequest.SetVoiceprintSimilarityScore | DataspaceConnector/src/be/src/main/java/it/eng/idsa/dataapp/domain/DspRequestRequest.java:87-89 | sets the voice score and nothing else |
| DspRequestDomain.DspRequestRequest.SetDescriptiveText | DataspaceConnector/src/be/src/main/java/it/eng/idsa/dataapp/domain/DspRequestRequest.java:95-97 | as written, the setter stores the text in the voiceprint score and leaves the descriptive text unchanged |
| DspRequestDomain.DspRequestRequest.SetFaceFile | DataspaceConnector/src/be/src/main/java/it/eng/idsa/dataapp/domain/DspRequestRequest.java:103-105 | sets the face file and nothing else |
| DspRequestDomain.DspRequestRequest.SetVoiceFile | DataspaceConnector/src/be/src/main/java/it/eng/idsa/dataapp/domain/DspRequestRequest.java:111-113 | sets the voice file and nothing else |
| DspRequestDomain.DspRequestRequest.SetFingerprintFile | DataspaceConnector/src/be/src/main/java/it/eng/idsa/dataapp/domain/DspRequestRequest.java:119-121 | sets the fingerprint file and nothing else |
| DspRequest.HasExtension | DataspaceConnector/src/be/src/main/java/it/eng/idsa/dataapp/service/impl/DspRequestServiceImpl.java:158-160 | true exactly for a non-null name with a '.' that is not its last character, so the text after the last '.' is a non-empty extension |
| DspRequest.CaseFileRoundTrip | DataspaceConnector/src/be/src/main/java/it/eng/idsa/dataapp/service/impl/DspRequestServiceImpl.java:319-323 | the case info file carries exactly the descriptive text it was made from |
| DspRequest.ConvertMultipartFileToBytes | DataspaceConnector/src/be/src/main/java/it/eng/idsa/dataapp/service/impl/DspRequestServiceImpl.java:346-349 | null exactly for a missing or empty upload, otherwise the upload's (non-empty) bytes |
| DspRequest.ZipOutput.constructor | DataspaceConnector/src/be/src/main/java/it/eng/idsa/dataapp/service/impl/DspRequestServiceImpl.java:381-382 | a new zip stream holds no entry |
| DspRequest.AddBytesToZip | DataspaceConnector/src/be/src/main/java/it/eng/idsa/dataapp/service/impl/DspRequestServiceImpl.java:351-359 | appends one entry with the name and data when both are non-null, and otherwise leaves the zip unchanged |
| DspRequest.BundlePartFacts | DataspaceConnector/src/be/src/main/java/it/eng/idsa/dataapp/service/impl/DspRequestServiceImpl.java:386-394 | an upload adds one entry, in its own category folder and with data, exactly when it is present and non-empty |
| DspRequest.CaseInfoHasNoCategory | DataspaceConnector/src/be/src/main/java/it/eng/idsa/dataapp/service/impl/DspRequestServiceImpl.java:385 | the case info entry lies in no biometric folder |
| DspRequest.BundleLayout | DataspaceConnector/src/be/src/main/java/it/eng/idsa/dataapp/service/impl/DspRequestServiceImpl.java:361-397 | the zip starts with the case info and then holds one non-empty entry per non-empty upload, face before voice before fingerprint |
| DspRequest.PrepareCapturedData | DataspaceConnector/src/be/src/main/java/it/eng/idsa/dataapp/service/impl/DspRequestServiceImpl.java:361-405 | the encryptor is asked to encrypt that zip with mode "face" under the zip name for the consumer, and its answer (or null on failure) is returned |
| DspRequest.Hex | DataspaceConnector/src/be/src/main/java/it/eng/idsa/dataapp/service/impl/DspRequestServiceImpl.java:209-214 | the hex text has two lower-case hex digits per byte |
| DspRequest.HexRoundTrip | DataspaceConnector/src/be/src/main/java/it/eng/idsa/dataapp/service/impl/DspRequestServiceImpl.java:209-216 | the hex text decodes back to exactly the key's bytes |
| DspRequest.HexString | DataspaceConnector/src/be/src/main/java/it/eng/idsa/dataapp/service/impl/DspRequestServiceImpl.java:209-214 | the loop over the decoded bytes builds the hex text of all of them |
| DspRequest.SpacesEncodedHasNoPlus | DataspaceConnector/src/be/src/main/java/it/eng/idsa/dataapp/service/impl/DspRequestServiceImpl.java:445-447 | after the replacements the encoded key contains no '+' |
| DspRequest.EncryptedKey | DataspaceConnector/src/be/src/main/java/it/eng/idsa/dataapp/service/impl/DspRequestServiceImpl.java:162-222 | null exactly when there is no reply, it is not a JSON object, or its "encrypted_key" is not a string |
| DspRequest.KeyReadsBack | DataspaceConnector/src/be/src/main/java/it/eng/idsa/dataapp/service/impl/DspRequestServiceImpl.java:205-216 | for a reply with a Base64 key, the result is "0x" followed by the hex of the key's bytes, and reads back to them |
| DspRequest.GetEncryptedKey | DataspaceConnector/src/be/src/main/java/it/eng/idsa/dataapp/service/impl/DspRequestServiceImpl.java:162-222 | the key request goes to the encryptor's key URL with the encoded public key, and the result is the decoded key or null |
| DspRequest.Augmented | DataspaceConnector/src/be/src/main/java/it/eng/idsa/dataapp/service/impl/DspRequestServiceImpl.java:491-495 | the platform's reply keeps all its fields except the five written over: recipientWebId, resIndex, duration 600, accessType "read" and the encoded key |
| DspRequest.UploadedWhereListed | DataspaceConnector/src/be/src/main/java/it/eng/idsa/dataapp/service/impl/DspRequestServiceImpl.java:256-317 | the request folder the encrypted bundle is uploaded to, and the file in it, are the URLs the provider later lists and downloads |
| DspRequest.PlatformReply | DataspaceConnector/src/be/src/main/java/it/eng/idsa/dataapp/service/impl/DspRequestServiceImpl.java:479-490 | the platform reply is usable exactly when present and a JSON object, and is its fields |
| DspRequest.CreateAccessRequest | DataspaceConnector/src/be/src/main/java/it/eng/idsa/dataapp/service/impl/DspRequestServiceImpl.java:407-518 | the encryptor is called on the bundle under the zip name, and the answer and the requests made are those of `AccessRequestRun` |
| DspRequest.AccessRequestRunSteps | DataspaceConnector/src/be/src/main/java/it/eng/idsa/dataapp/service/impl/DspRequestServiceImpl.java:407-518 | the key is requested first and a null key stops everything; the request is then posted with the encoded key, and a bad reply stops there |
| DspRequest.AccessRequestRunSuccess | DataspaceConnector/src/be/src/main/java/it/eng/idsa/dataapp/service/impl/DspRequestServiceImpl.java:407-518 | on success the augmented reply is returned, the encrypted bundle is uploaded to the consumer's folder exactly when the encryptor answered, and access is granted last |
| DspRequest.CreateDspAccessRequest | DataspaceConnector/src/be/src/main/java/it/eng/idsa/dataapp/service/impl/DspRequestServiceImpl.java:89-114 | the answer is 200 with an augmented reply (duration 600, accessType "read") or 500 "Message could not be processed" |
| DspRequest.ParseIncomingDspRequestRequest | DataspaceConnector/src/be/src/main/java/it/eng/idsa/dataapp/service/impl/DspRequestServiceImpl.java:70-86 | a fresh request holding every argument in its field |
| DspResponse.LongField | DataspaceConnector/src/be/src/main/java/it/eng/idsa/dataapp/service/impl/DspResponseServiceImpl.java:68 | the `(long)` cast succeeds exactly for an integer field |
| DspResponse.FormOf | DataspaceConnector/src/be/src/main/java/it/eng/idsa/dataapp/service/impl/DspResponseServiceImpl.java:63-80 | the form is read exactly when requestId is an integer and every other read field is a string or absent; the resource URL slot receives the suspect profile id |
| DspResponse.ParseIncomingDspResponseRequest | DataspaceConnector/src/be/src/main/java/it/eng/idsa/dataapp/service/impl/DspResponseServiceImpl.java:59-85 | unparsable text gives the empty request, a non-object raises, and an object gives the form read from its fields |
| DspResponse.RetrieveIndexUrl | DataspaceConnector/src/be/src/main/java/it/eng/idsa/dataapp/service/impl/DspResponseServiceImpl.java:111-159 | the index URL is the body of a 200 answer and "" otherwise |
| DspResponse.GrantCoversStoredProfile | DataspaceConnector/src/be/src/main/java/it/eng/idsa/dataapp/service/impl/DspResponseServiceImpl.java:216-220 | the read grant names the same stored resource "<pod>%2Fsuspects%2F<id>.zip.enc" that the provider downloads |
| DspResponse.ResponseBodyFixedFields | DataspaceConnector/src/be/src/main/java/it/eng/idsa/dataapp/service/impl/DspResponseServiceImpl.java:294-301 | the posted body carries the index URL unquoted as resUrl, then duration 600 and accessType "read" |
| DspResponse.FetchedRequest | DataspaceConnector/src/be/src/main/java/it/eng/idsa/dataapp/service/impl/DspResponseServiceImpl.java:188-213 | the fetched request is an object, or null exactly when the reply parses to null |
| DspResponse.Overridden | DataspaceConnector/src/be/src/main/java/it/eng/idsa/dataapp/service/impl/DspResponseServiceImpl.java:325-328 | the platform's response keeps its other fields and has requestId, duration 600, responseType and tos written over |
| DspResponse.CreateAccessResponse | DataspaceConnector/src/be/src/main/java/it/eng/idsa/dataapp/service/impl/DspResponseServiceImpl.java:250-341 | the index URL is fetched first, the read grant follows when the consumer's Solid API is known, then the response post; a usable reply leads to the request fetch and the case update carrying both, and the overridden reply is returned |
| DspResponse.CreateDspAccessResponse | DataspaceConnector/src/be/src/main/java/it/eng/idsa/dataapp/service/impl/DspResponseServiceImpl.java:88-108 | the answer is 200 exactly when the platform answers the response post with a JSON object, and its body is that reply with requestId, duration 600, responseType and tos written over; otherwise 500 "Message could not be processed" |
| DisplayEvidence.GetLatestEvidence | DataspaceConnector/src/be/src/main/java/it/eng/idsa/dataapp/service/impl/DisplayEvidenceServiceImpl.java:87-118 | the loop over the graph computes the latest-evidence specification |
| DisplayEvidence.FoldFindsFirstLatest | DataspaceConnector/src/be/src/main/java/it/eng/idsa/dataapp/service/impl/DisplayEvidenceServiceImpl.java:96-111 | with no failing item, no id is chosen exactly when no "*.zip.enc" item has a date; otherwise the chosen one is the first with the latest date |
| DisplayEvidence.LatestEvidenceRule | DataspaceConnector/src/be/src/main/java/it/eng/idsa/dataapp/service/impl/DisplayEvidenceServiceImpl.java:87-118 | no listing or no "@graph" array gives null; otherwise the choice is the first latest "*.zip.enc" item among the items before the first that raises |
| DisplayEvidence.ExtractZipContents | DataspaceConnector/src/be/src/main/java/it/eng/idsa/dataapp/service/impl/DisplayEvidenceServiceImpl.java:159-228 | non-zip bytes give an empty object; otherwise the loop over the entries computes the display specification |
| DisplayEvidence.DisplayFoldMeaning | DataspaceConnector/src/be/src/main/java/it/eng/idsa/dataapp/service/impl/DisplayEvidenceServiceImpl.java:170-222 | with no failing entry, the object holds, for each biometric folder, the URI of the last file in it, and the description of the last case info file |
| DisplayEvidence.DisplayContentsRule | DataspaceConnector/src/be/src/main/java/it/eng/idsa/dataapp/service/impl/DisplayEvidenceServiceImpl.java:159-228 | for a zip, the keys are limited to the display keys, and each holds the last URI or description among the entries before the first that raises |
| DisplayEvidence.CreateDisplayEvidence | DataspaceConnector/src/be/src/main/java/it/eng/idsa/dataapp/service/impl/DisplayEvidenceServiceImpl.java:72-85 | the latest evidence file is chosen from the listing; no file gives an empty 200 answer; otherwise the file is decrypted, and a failure gives 500 while success gives 200 with the zip's contents |
| CriminalProfile.MimeByExtension | DataspaceConnector/src/be/src/main/java/it/eng/idsa/dataapp/service/impl/CriminalProfileServiceImpl.java:169-174 | when sniffing fails, one case per branch: ".png" gives image/png; otherwise ".jpg"/".jpeg" image/jpeg; otherwise ".flac" audio/flac; otherwise ".json" application/json; anything else application/octet-stream |
| CriminalProfile.ExtractZipContents | DataspaceConnector/src/be/src/main/java/it/eng/idsa/dataapp/service/impl/CriminalProfileServiceImpl.java:128-216 | the loop over the entries computes the profile specification |
| CriminalProfile.PrefixesExclusive | DataspaceConnector/src/be/src/main/java/it/eng/idsa/dataapp/service/impl/CriminalProfileServiceImpl.java:187-196 | an entry falls into at most one of the face, voice and finger branches |
| CriminalProfile.ProfileStepEffect | DataspaceConnector/src/be/src/main/java/it/eng/idsa/dataapp/service/impl/CriminalProfileServiceImpl.java:140-203 | one entry appends its data URI to the list of its folder only; the case info file sets "info" to its parsed JSON, and any other entry leaves the collected object unchanged |
| CriminalProfile.ProfileFoldMeaning | DataspaceConnector/src/be/src/main/java/it/eng/idsa/dataapp/service/impl/CriminalProfileServiceImpl.java:140-209 | with no failing entry, each list holds the URIs of its folder's files in archive order; "info" is present exactly when there is a case info file, and holds the parsed JSON of the last one |
| CriminalProfile.PublishedArrays | DataspaceConnector/src/be/src/main/java/it/eng/idsa/dataapp/service/impl/CriminalProfileServiceImpl.java:207-209 | the three lists are published as "face", "voice" and "fingerprint" next to the collected keys, and "info" keeps its collected value |
| CriminalProfile.ProfileScanPrefix | DataspaceConnector/src/be/src/main/java/it/eng/idsa/dataapp/service/impl/CriminalProfileServiceImpl.java:128-216 | the scan fails exactly when some entry raises, and keeps what the entries before it collected, "info" holding the last info file among them |
| CriminalProfile.ProfileContentsComplete | DataspaceConnector/src/be/src/main/java/it/eng/idsa/dataapp/service/impl/CriminalProfileServiceImpl.java:128-216 | a zip that reads to the end gives the three arrays of its folders' URIs, and "info" (when there is an info file) holding the last info file's JSON |
| CriminalProfile.ProfileContentsBroken | DataspaceConnector/src/be/src/main/java/it/eng/idsa/dataapp/service/impl/CriminalProfileServiceImpl.java:211-215 | a zip that breaks off gives only the "info" collected before the break, holding the last info file before it, and no arrays |
| CriminalProfile.CreateCriminalProfile | DataspaceConnector/src/be/src/main/java/it/eng/idsa/dataapp/service/impl/CriminalProfileServiceImpl.java:67-80 | the profile is fetched and decrypted; a failure or no result gives 500, otherwise 200 with the profile's contents |
| ArtifactHandler.ArtifactId | DataspaceConnector/src/be/src/main/java/it/eng/idsa/dataapp/handler/ArtifactMessageHandler.java:118-119 | the artifact id is the path's last segment: text with no '/', the whole path when it has none, else the text after one of its '/' |
| ArtifactHandler.IsBigPayload | DataspaceConnector/src/be/src/main/java/it/eng/idsa/dataapp/handler/ArtifactMessageHandler.java:171-178 | raises exactly for a path without '/', and is true exactly when the path ends in "/big" |
| ArtifactHandler.BigTail | DataspaceConnector/src/be/src/main/java/it/eng/idsa/dataapp/handler/ArtifactMessageHandler.java:172-173 | the tail from the last '/' is "/big" exactly when the path ends in "/big" |
| ArtifactHandler.Add | DataspaceConnector/src/be/src/main/java/it/eng/idsa/dataapp/handler/ArtifactMessageHandler.java:265-283 | adding a URI extends only its folder's list and leaves the info object alone |
| ArtifactHandler.ExtractZipContents | DataspaceConnector/src/be/src/main/java/it/eng/idsa/dataapp/handler/ArtifactMessageHandler.java:223-296 | the loop over the entries computes the artifact contents specification |
| ArtifactHandler.ArtifactStepEffect | DataspaceConnector/src/be/src/main/java/it/eng/idsa/dataapp/handler/ArtifactMessageHandler.java:235-286 | one entry appends its data URI to its folder's list only; the case info file sets "info" to its parsed JSON, and any other entry leaves the collected object unchanged |
| ArtifactHandler.ArtifactFoldMeaning | DataspaceConnector/src/be/src/main/java/it/eng/idsa/dataapp/handler/ArtifactMessageHandler.java:235-290 | with no failing entry, each list holds its folder's URIs in archive order; "info" is present exactly when there is a case info file, and holds the parsed JSON of the last one |
| ArtifactHandler.ArtifactScanPrefix | DataspaceConnector/src/be/src/main/java/it/eng/idsa/dataapp/handler/ArtifactMessageHandler.java:223-296 | the scan fails exactly when some entry raises, and keeps what the entries before it collected, "info" holding the last info file among them |
| ArtifactHandler.PublishedField | DataspaceConnector/src/be/src/main/java/it/eng/idsa/dataapp/handler/ArtifactMessageHandler.java:288-290 | the lists are published as "face", "voice" and "fingerprint" beside the collected keys, and "info" keeps its collected value |
| ArtifactHandler.ArtifactContentsComplete | DataspaceConnector/src/be/src/main/java/it/eng/idsa/dataapp/handler/ArtifactMessageHandler.java:223-296 | a zip that reads to the end gives the three arrays of its folders' URIs, and "info" (when there is an info file) holding the last info file's JSON |
| ArtifactHandler.ArtifactContentsBroken | DataspaceConnector/src/be/src/main/java/it/eng/idsa/dataapp/handler/ArtifactMessageHandler.java:292-295 | a zip that breaks off gives only the "info" collected before the break, holding the last info file before it |
| ArtifactHandler.SuspectProfile | DataspaceConnector/src/be/src/main/java/it/eng/idsa/dataapp/handler/ArtifactMessageHandler.java:298-321 | no download raises NotAuthorizedException; an encryptor failure propagates; a null decryption raises NullPointerException; otherwise the zip's contents |
| ArtifactHandler.GetSuspectProfile | DataspaceConnector/src/be/src/main/java/it/eng/idsa/dataapp/handler/ArtifactMessageHandler.java:298-321 | the method computes the suspect profile specification |
| ArtifactHandler.ArtifactMessageHandler.constructor | DataspaceConnector/src/be/src/main/java/it/eng/idsa/dataapp/handler/ArtifactMessageHandler.java:65-84 | stores its collaborators and starts with no provider pod |
| ArtifactHandler.ArtifactMessageHandler.WssPayload | DataspaceConnector/src/be/src/main/java/it/eng/idsa/dataapp/handler/ArtifactMessageHandler.java:136-151 | the WSS payload is the Base64 of the data-lake file named by the artifact id, exactly when the artifact is offered and the file is readable; NotFoundException otherwise |
| ArtifactHandler.ArtifactMessageHandler.RestPayload | DataspaceConnector/src/be/src/main/java/it/eng/idsa/dataapp/handler/ArtifactMessageHandler.java:153-168 | an artifact not offered raises NotFoundException; otherwise the suspect profile of the artifact id from the provider's pod, or its error |
| ArtifactHandler.ArtifactMessageHandler.HandleWssFlow | DataspaceConnector/src/be/src/main/java/it/eng/idsa/dataapp/handler/ArtifactMessageHandler.java:117-134 | the WSS flow computes the WSS payload |
| ArtifactHandler.ArtifactMessageHandler.HandleRestFlow | DataspaceConnector/src/be/src/main/java/it/eng/idsa/dataapp/handler/ArtifactMessageHandler.java:153-168 | the REST flow computes the REST payload |
| ArtifactHandler.ArtifactMessageHandler.HandleMessage | DataspaceConnector/src/be/src/main/java/it/eng/idsa/dataapp/handler/ArtifactMessageHandler.java:86-115 | records the pod; a missing artifact raises BadParametersException; otherwise the WSS or REST payload according to the thread's flag |
| EncryptorProtocol.RouteFor | DataspaceConnector/src/be/src/main/java/it/eng/idsa/dataapp/util/TensorBE.java:120-128 | a route exists exactly for "encrypt" and "decrypt" |
| EncryptorProtocol.RoutesDistinct | DataspaceConnector/src/be/src/main/java/it/eng/idsa/dataapp/util/TensorBE.java:120-128 | the two routes differ in endpoint and in both file field names |
| EncryptorProtocol.RequestBody.constructor | DataspaceConnector/src/be/src/main/java/it/eng/idsa/dataapp/util/TensorBE.java:146-147 | a new request body is empty |
| EncryptorProtocol.RequestBody.Append | DataspaceConnector/src/be/src/main/java/it/eng/idsa/dataapp/util/TensorBE.java:89-96 | appending text adds exactly that text chunk at the end |
| EncryptorProtocol.RequestBody.Write | DataspaceConnector/src/be/src/main/java/it/eng/idsa/dataapp/util/TensorBE.java:98-101 | writing bytes adds exactly that raw chunk at the end |
| EncryptorProtocol.AddRequestFilePart | DataspaceConnector/src/be/src/main/java/it/eng/idsa/dataapp/util/TensorBE.java:80-104 | the writer receives exactly the chunks of one multipart file part |
| EncryptorProtocol.DispositionRoundTrip | DataspaceConnector/src/be/src/main/java/it/eng/idsa/dataapp/util/TensorBE.java:90-91 | the disposition line reads back to its field and file names when neither contains a quote |
| EncryptorProtocol.PartRoundTrip | DataspaceConnector/src/be/src/main/java/it/eng/idsa/dataapp/util/TensorBE.java:80-104 | a written part reads back to its field name, file name and content |
| EncryptorProtocol.Drain | DataspaceConnector/src/be/src/main/java/it/eng/idsa/dataapp/util/TensorBE.java:171-182 | the reading loop collects the concatenation of all received chunks |
| EncryptorProtocol.QueryEncryptor | DataspaceConnector/src/be/src/main/java/it/eng/idsa/dataapp/util/TensorBE.java:106-198 | another query type gives null with nothing sent; a missing enrolment image or file raises; otherwise the multipart post to the endpoint with the mode carries the enrolment part, the file part and the closing boundary, and a 200 answer's bytes are returned (null otherwise) |
| EncryptorProtocol.SentPartsReadBack | DataspaceConnector/src/be/src/main/java/it/eng/idsa/dataapp/util/TensorBE.java:159-164 | the two parts sent read back to the enrolment image and to the file, with their field names |
| EvidenceArchive.IsZipFile | DataspaceConnector/src/be/src/main/java/it/eng/idsa/dataapp/service/impl/DisplayEvidenceServiceImpl.java:230-240 | true exactly for bytes starting with the local-file signature 50 4B 03 04 |
| EvidenceArchive.CategoryOf | DataspaceConnector/src/be/src/main/java/it/eng/idsa/dataapp/service/impl/DisplayEvidenceServiceImpl.java:201-218 | an entry's category is a folder prefix it starts with, and none exactly when it starts with none |
| EvidenceArchive.CategoryUnique | DataspaceConnector/src/be/src/main/java/it/eng/idsa/dataapp/service/impl/CriminalProfileServiceImpl.java:187-196 | an entry under a folder prefix is classified to that folder |
| EvidenceArchive.DataUriRoundTrip | DataspaceConnector/src/be/src/main/java/it/eng/idsa/dataapp/service/impl/DisplayEvidenceServiceImpl.java:205 | a data URI reads back to its media type and Base64 text |
| EvidenceArchive.StrArray | DataspaceConnector/src/be/src/main/java/it/eng/idsa/dataapp/service/impl/CriminalProfileServiceImpl.java:207-209 | the JSON array holds the URIs as strings in order |
| MatchLocal.ParseIncomingMatchLocalRequest | DataspaceConnector/src/be/src/main/java/it/eng/idsa/dataapp/service/impl/MatchLocalServiceImpl.java:37-46 | the request holds every argument in its field |
| MatchLocal.HashBody | DataspaceConnector/src/be/src/main/java/it/eng/idsa/dataapp/service/impl/MatchLocalServiceImpl.java:55-64 | the hashing body flags each modality whose URL is non-empty and carries the three URLs |
| MatchLocal.GetHashData | DataspaceConnector/src/be/src/main/java/it/eng/idsa/dataapp/service/impl/MatchLocalServiceImpl.java:48-105 | a null URL raises before any call and gives an empty object; otherwise one post to "/calculateHashForSearching"; a JSON null reply gives null, an object reply is tagged with "from"/"to", and anything else gives an empty object |
| MatchLocal.Tagged | DataspaceConnector/src/be/src/main/java/it/eng/idsa/dataapp/service/impl/MatchLocalServiceImpl.java:97-100 | the hash data keeps its fields and gains "from" as the upper-cased consumer id and "to" as the upper-cased provider id; a null consumer raises before either is written |
| MatchLocal.GetMatchData | DataspaceConnector/src/be/src/main/java/it/eng/idsa/dataapp/service/impl/MatchLocalServiceImpl.java:107-147 | null hash data posts nothing and gives an empty array; otherwise one post to "/searchForMatches"; an array reply is returned, a null reply gives null, anything else an empty array |
| MatchLocal.CreateMatchLocal | DataspaceConnector/src/be/src/main/java/it/eng/idsa/dataapp/service/impl/MatchLocalServiceImpl.java:150-174 | the answer is always 200 (the 500 path is never taken), after at most two indexer calls; its body is the indexer's match array for the tagged hashes, or null when the indexer answered null |
| MatchInit.ParseIncomingMatchInitRequest | DataspaceConnector/src/be/src/main/java/it/eng/idsa/dataapp/service/impl/MatchInitServiceImpl.java:36-43 | the request holds the three hashes |
| MatchInit.GetBrokerParticipants | DataspaceConnector/src/be/src/main/java/it/eng/idsa/dataapp/service/impl/MatchInitServiceImpl.java:67-93 | one participant entry per registered connector, each built from a registered connector, and every connector listed |
| MatchInit.CreateMatchInit | DataspaceConnector/src/be/src/main/java/it/eng/idsa/dataapp/service/impl/MatchInitServiceImpl.java:46-63 | 200 with one participant per registered connector |
| FuzzyExtraction.BytesToBitsMeaning | FuzzyExtractor/fuzzy_extractor.py:28-36 | bit 8t+j of the expansion is bit 7-j of byte t, most significant first, eight bits per byte |
| FuzzyExtraction.BytesToBits | FuzzyExtractor/fuzzy_extractor.py:28-36 | the loop builds exactly the bit expansion of the bytes |
| FuzzyExtraction.BitsToBytes | FuzzyExtractor/fuzzy_extractor.py:12-26 | the loop builds exactly the packing of the bits, eight per byte |
| FuzzyExtraction.Packed | FuzzyExtractor/fuzzy_extractor.py:12-26 | packing gives one byte per started group of eight bits |
| FuzzyExtraction.PackedLastByte | FuzzyExtractor/fuzzy_extractor.py:20-24 | r < 8 bits after q full groups make one last byte, the bits in its high positions and zeros below |
| FuzzyExtraction.BitsRoundTrip | FuzzyExtractor/fuzzy_extractor.py:12-36 | packing the bits of bytes gives back the bytes |
| FuzzyExtraction.PackedPrefix | FuzzyExtractor/fuzzy_extractor.py:12-36 | expanding packed bits starts with the original bits |
| FuzzyExtraction.Fit | FuzzyExtractor/fuzzy_extractor.py:60-64 | padding or truncation to n keeps the first bits and fills the rest with zeros |
| FuzzyExtraction.FitPacked | FuzzyExtractor/fuzzy_extractor.py:96-106 | fitting the expansion of packed bits to their length gives the bits back |
| FuzzyExtraction.XorCancel | FuzzyExtractor/fuzzy_extractor.py:80 | adding the same reading twice over GF(2) cancels it |
| FuzzyExtraction.Weight | FuzzyExtractor/fuzzy_extractor.py:110-115 | the number of differing bits is at most the length |
| FuzzyExtraction.Reading | FuzzyExtractor/fuzzy_extractor.py:59-64 | the reading used is exactly n bits |
| FuzzyExtraction.HelperData | FuzzyExtractor/fuzzy_extractor.py:78-85 | the helper data is one byte per started eight of the n code bits |
| FuzzyExtraction.Generate | FuzzyExtractor/fuzzy_extractor.py:53-88 | the key bytes pack the (random, given) key bits, and the helper data is the reading plus the codeword of the key |
| FuzzyExtraction.Reproduce | FuzzyExtractor/fuzzy_extractor.py:90-127 | the method computes the recovery specification: decoding the reading plus the helper data, or None when decoding fails |
| FuzzyExtraction.ReproduceSameReading | FuzzyExtractor/fuzzy_extractor.py:53-127 | with the same reading and a decoder that decodes codewords, the key is recovered exactly |
| FuzzyExtraction.ReproduceNearbyReading | FuzzyExtractor/fuzzy_extractor.py:53-127 | when the reading differs in at most t bits and the decoder corrects t errors, the key is recovered exactly |
| FingerBioUtils.ExtractMinutiaePoints | FuzzyExtractor/finger_bio_utils.py:49-81 | the nested loops compute the minutiae list specification |
| FingerBioUtils.RowPointsMembership | FuzzyExtractor/finger_bio_utils.py:69-79 | a point comes from a row exactly when it lies in that row and is a minutia |
| FingerBioUtils.MinutiaeMembership | FuzzyExtractor/finger_bio_utils.py:68-79 | a point is listed exactly when it lies in the image and is a minutia |
| FingerBioUtils.MinutiaeMeaning | FuzzyExtractor/finger_bio_utils.py:70-79 | a listed point is a white pixel whose white 8-neighbour count (zero padding outside) is 1 or 3, and every such pixel is listed |
| FingerBioUtils.RowPointsOrdered | FuzzyExtractor/finger_bio_utils.py:69-79 | one row's points are in increasing column order |
| FingerBioUtils.MinutiaeOrdered | FuzzyExtractor/finger_bio_utils.py:68-81 | the points are listed row by row, column by column |
| FingerBioUtils.Flatten | FuzzyExtractor/finger_bio_utils.py:96 | flattening gives two numbers per point |
| FingerBioUtils.FlattenAt | FuzzyExtractor/finger_bio_utils.py:96 | point m appears as its x at 2m and its y at 2m+1 |
| FingerBioUtils.GenerateBioDescriptor | FuzzyExtractor/finger_bio_utils.py:83-106 | no points give None; otherwise the descriptor has the requested length: the flattened coordinates truncated or zero-padded, each taken modulo 2^16 |
| FingerBioUtils.DescriptorSlots | FuzzyExtractor/finger_bio_utils.py:96-106 | a point in range and within the descriptor keeps its coordinates in slots 2m and 2m+1 |
| FingerBioUtils.ToBytes | FuzzyExtractor/main_v1_zip.py:99 | two bytes per 16-bit value |
| FingerBioUtils.ToBytesAt | FuzzyExtractor/main_v1_zip.py:99 | each value is written little-endian: low byte first |
| KeyProcess.AdjustKeyLength | FuzzyExtractor/main_v1_zip.py:10-17 | the result has the desired length: a longer key is truncated, a shorter one padded with zero bytes |
| KeyProcess.AdjustKeyLengthIdempotent | FuzzyExtractor/main_v1_zip.py:10-17 | a key of the right length is kept, and adjusting twice equals adjusting once |
| KeyProcess.DescriptorBytes | FuzzyExtractor/main_v1_zip.py:71-99 | a descriptor exists only in face or fingerprint mode, a fingerprint one has 128 bytes, and any other mode fails as the unbound descriptor does |
| KeyProcess.NoMinutiaeNoDescriptor | FuzzyExtractor/main_v1_zip.py:88-94 | a fingerprint with no minutiae gives no descriptor |
| KeyProcess.EncryptionProcess | FuzzyExtractor/main_v1_zip.py:68-110 | succeeds exactly when a descriptor is produced; the key is the packed key adjusted to 32 bytes, the file is encrypted with it, and the helper data comes from the descriptor |
| KeyProcess.SplitExt | FuzzyExtractor/main_v1_zip.py:144 | splitting the path at its extension loses nothing, and the extension is empty or starts with '.' |
| KeyProcess.DecryptedFilePath | FuzzyExtractor/main_v1_zip.py:150 | the decrypted file is written under "./decrypted/decrypted_file" |
| KeyProcess.DecryptionProcess | FuzzyExtractor/main_v1_zip.py:114-153 | another mode fails; success means the recovered key, adjusted to 32 bytes, equals the stored key, and the result is the decryption and the output path |
| KeyProcess.EncryptThenDecrypt | FuzzyExtractor/main_v1_zip.py:68-153 | decrypting with the same image what encryption produced returns the original file |
| IndexerApi.Capitalize | LargeScaleIndexer/SourceCode/app/flask_main.py:281 | Python's capitalize: same length, first character upper-cased, the rest lower-cased |
| IndexerApi.ModalityOf | LargeScaleIndexer/SourceCode/app/flask_main.py:255-276 | IMAGE, VOICE and FINGERPRINT select face, voice and fingerprint indexing, each exactly for that type |
| IndexerApi.IndexLocalData | LargeScaleIndexer/SourceCode/app/flask_main.py:239-287 | a missing owner gives 500 "An error occurred"; an upper-cased supported type with a truthy URL is indexed with that modality and answered 200 with the criminal id and the capitalised type; every other request is 400 |
| IndexerApi.GetOr | LargeScaleIndexer/SourceCode/app/flask_main.py:300-302 | dict.get: the value when the key is present, else the default |
| IndexerApi.ResponseType | LargeScaleIndexer/SourceCode/app/flask_main.py:299-303 | the response type has exactly the keys IMAGE, FINGERPRINT and VOICE, each the request's flag or False |
| IndexerApi.CalculateHashForSearching | LargeScaleIndexer/SourceCode/app/flask_main.py:294-348 | without a type object the answer is 500; otherwise 200 with exactly type, face, voice, fingerprint and bound, each hash present only for a requested modality with a truthy URL and [] otherwise; the fingerprint field is the fingerprint hasher's result for that URL |
| IndexerApi.WithScore | LargeScaleIndexer/SourceCode/app/flask_main.py:409 | setting one modality's score leaves the other two unchanged |
| IndexerApi.Fresh | LargeScaleIndexer/SourceCode/app/flask_main.py:395-402 | a new record has the given score for its modality and 0 for the other two |
| IndexerApi.Listed | LargeScaleIndexer/SourceCode/app/flask_main.py:437 | one output record per pseudo id in the table |
| IndexerApi.StepWellFormed | LargeScaleIndexer/SourceCode/app/flask_main.py:393-434 | one match step keeps every listed id scored and listed once |
| IndexerApi.AbsorbedWellFormed | LargeScaleIndexer/SourceCode/app/flask_main.py:391-434 | absorbing one modality's matches keeps the table well formed |
| IndexerApi.SearchForMatches | LargeScaleIndexer/SourceCode/app/flask_main.py:391-440 | the three loops build exactly the merged table and list it in insertion order |
| IndexerApi.Absorb | LargeScaleIndexer/SourceCode/app/flask_main.py:391-434 | one modality's loop builds exactly the table absorbing its matches |
| IndexerApi.Ids | LargeScaleIndexer/SourceCode/app/flask_main.py:393 | the pseudo ids of the matches, position by position |
| IndexerApi.FirstScoreOfPrefix | LargeScaleIndexer/SourceCode/app/flask_main.py:394 | the first score of an id already seen does not change as more matches follow |
| IndexerApi.AbsorbedScores | LargeScaleIndexer/SourceCode/app/flask_main.py:391-434 | an id is scored exactly when it already was or appears in the matches; face keeps an existing record and gives a new id its first score; voice and fingerprint write their last score into an existing or zero record; other ids are untouched |
| IndexerApi.FirstNotBefore | LargeScaleIndexer/SourceCode/app/flask_main.py:394-395 | an id first seen in the last match takes that match's score |
| IndexerApi.MergedScores | LargeScaleIndexer/SourceCode/app/flask_main.py:391-434 | an id is listed exactly when some modality matched it; its face score is its first face score, its voice and fingerprint scores the last ones, 0 where unmatched |
| IndexerApi.AbsorbedOrder | LargeScaleIndexer/SourceCode/app/flask_main.py:394-434 | new ids join the order at their first appearance |
| IndexerApi.MergedOrder | LargeScaleIndexer/SourceCode/app/flask_main.py:391-437 | the output order is first appearance across face, then voice, then fingerprint matches |
| IndexerApi.SilentModality | LargeScaleIndexer/SourceCode/app/flask_main.py:360-391 | a modality with no query contributes nothing, like an empty match list |
| DatasetBatching.Range | LargeScaleIndexer/SourceCode/app/dhn.py:264 | np.arange: the n indices 0..n-1 in order |
| DatasetBatching.RangeIsPermutation | LargeScaleIndexer/SourceCode/app/dhn.py:264-265 | the unshuffled index order is a permutation of the samples |
| DatasetBatching.SliceBound | LargeScaleIndexer/SourceCode/app/dhn.py:298 | a Python slice bound is clamped to the length, negative bounds counting from the end |
| DatasetBatching.PySlice | LargeScaleIndexer/SourceCode/app/dhn.py:298 | a Python slice with in-range bounds is the plain subsequence |
| DatasetBatching.ValidationStart | LargeScaleIndexer/SourceCode/app/dhn.py:294 | the corrected validation start is never negative: the last batchSize samples, or all of them when the batch is larger |
| DatasetBatching.AsWrittenValidationBatch | LargeScaleIndexer/SourceCode/app/dhn.py:294-298 | the last validation batch as written, which is the final batchSize indices when the batch fits |
| DatasetBatching.AsWrittenSkipsSamples | LargeScaleIndexer/SourceCode/app/dhn.py:294-298 | as written, 3 samples with batch size 5 yield only the indices [1, 2]; sample 0 is never encoded |
| DatasetBatching.AsWrittenMissesPrefix | LargeScaleIndexer/SourceCode/app/dhn.py:294-298 | as written, a batch larger than the dataset but under twice its size wraps the negative start and returns fewer than all samples |
| DatasetBatching.ValidationBatchCovers | LargeScaleIndexer/SourceCode/app/dhn.py:294-298 | the corrected last batch is the final batchSize indices, or the whole permutation when the batch is larger |
| DatasetBatching.Dataset.constructor | LargeScaleIndexer/SourceCode/app/dhn.py:257-269 | a new dataset holds a permutation, starts at index 0 and epoch 0, with zero outputs and no paths |
| DatasetBatching.Dataset.BatchStart | LargeScaleIndexer/SourceCode/app/dhn.py:303 | corrected (see Findings): the start of the last batch is never past the epoch index |
| DatasetBatching.Dataset.NextBatch | LargeScaleIndexer/SourceCode/app/dhn.py:271-300 | corrected (see Findings): a batch that fits advances the index by batchSize; an overrun in training counts an epoch, reshuffles and restarts; an overrun in validation returns the clamped tail and pins the index at n; outputs and paths are unchanged |
| DatasetBatching.Dataset.FeedBatchOutput | LargeScaleIndexer/SourceCode/app/dhn.py:302-307 | corrected (see Findings): the rows and paths of the last batch land at its sample indices and no other sample changes |
| DatasetBatching.Dataset.FinishEpoch | LargeScaleIndexer/SourceCode/app/dhn.py:321-324 | the index returns to 0 with a fresh permutation; epochs, outputs and paths are kept |
| DatasetBatching.SliceDistinct | LargeScaleIndexer/SourceCode/app/dhn.py:305-306 | a slice of a permutation names distinct in-range samples, so the fancy-indexed write is well defined |
| DatasetBatching.CreateDatabase | LargeScaleIndexer/SourceCode/app/dhn.py:389-414 | corrected (see Findings): after ceil(n / b) validation batches every sample holds its own encoding and path |
| DatasetBatching.DatabaseBatch | LargeScaleIndexer/SourceCode/app/dhn.py:404-414 | one validation batch advances the position by the batch size, or to the end on an overrun, and every sample before the new position holds its own encoding and path |
| DatasetBatching.CeilDivCovers | LargeScaleIndexer/SourceCode/app/dhn.py:399 | ceil(n / b) batches of b cover n samples |
| DatasetBatching.CoveredStep | LargeScaleIndexer/SourceCode/app/dhn.py:404-414 | writing one more batch extends the covered prefix of the permutation |
| Catalogue.ParseSpaced | LargeScaleIndexer/SourceCode/app/voice_comparator.py:202-211 | a stripped line is skipped exactly when blank or of fewer than three space-separated parts, raises on unpacking exactly when it has more than three, and otherwise is the entry of its three parts with the flag read as lower-case "true" |
| Catalogue.StripNoSpace | LargeScaleIndexer/SourceCode/app/voice_comparator.py:202 | stripping a field without whitespace leaves it unchanged |
| Catalogue.LowerFlags | LargeScaleIndexer/SourceCode/app/voice_comparator.py:108-211 | Python's rendering of True reads back as "true" and of False does not |
| Catalogue.FlagsReadBack | LargeScaleIndexer/SourceCode/app/voice_comparator.py:108-211 | the stored sensitivity flag, stripped and lower-cased, reads back as the boolean written |
| Catalogue.SpacedRoundTrip | LargeScaleIndexer/SourceCode/app/voice_comparator.py:108-211 | a line written by indexing parses back to the same id, code and sensitivity |
| Catalogue.ScoredFailureSticks | LargeScaleIndexer/SourceCode/app/voice_comparator.py:200-228 | once a line's similarity request fails, the whole search fails with that error |
| Catalogue.SensitiveLineHidden | LargeScaleIndexer/SourceCode/app/voice_comparator.py:213-214 | a sensitive line contributes nothing when the originator is not the LEA |
| Catalogue.ScoredIncludes | LargeScaleIndexer/SourceCode/app/voice_comparator.py:200-228 | every visible entry's similarity is among the scored pairs of a successful search |
| Catalogue.FirstIndex | LargeScaleIndexer/SourceCode/app/voice_comparator.py:226 | list.index: the first position holding the value |
| Catalogue.BestOf | LargeScaleIndexer/SourceCode/app/voice_comparator.py:221-228 | one best score per distinct name |
| Catalogue.SearchCatalogue | LargeScaleIndexer/SourceCode/app/voice_comparator.py:192-228 | the search reads the real and synthetic catalogues joined by a newline, line by line |
| Catalogue.SearchLines | LargeScaleIndexer/SourceCode/app/voice_comparator.py:200-228 | the loop over the lines computes exactly the best-per-name scores of the visible entries |
| Catalogue.Names | LargeScaleIndexer/SourceCode/app/voice_comparator.py:222 | the names of the scored pairs, position by position |
| Catalogue.MaxScoreIsMax | LargeScaleIndexer/SourceCode/app/voice_comparator.py:222-228 | the kept score of a name is at least each of its scores and is one of them |
| Catalogue.BestOfMeaning | LargeScaleIndexer/SourceCode/app/voice_comparator.py:221-228 | names appear once each, in first-seen order, each with its highest similarity |
| Catalogue.Top | LargeScaleIndexer/SourceCode/app/voice_comparator.py:234-238 | the top list has min(topN, number of names) names and scores |
| Catalogue.TopMeaning | LargeScaleIndexer/SourceCode/app/voice_comparator.py:234-238 | the top scores are descending, the names distinct, and no omitted name outscores a listed one |
| Catalogue.RankedMeaning | LargeScaleIndexer/SourceCode/app/voice_comparator.py:192-240 | a successful search returns min(topN, distinct names) distinct names with descending scores, each its best similarity, and no omitted name scores higher than any returned one |
| Catalogue.ExistingCatalogue | LargeScaleIndexer/SourceCode/app/voice_comparator.py:110-121 | a failed fetch or a JSON error object counts as an empty catalogue; anything else is kept as fetched |
| Catalogue.SingleLine | LargeScaleIndexer/SourceCode/app/voice_comparator.py:200 | text without a line break is one line |
| Catalogue.FirstBreakNone | LargeScaleIndexer/SourceCode/app/voice_comparator.py:200 | text without a line break has no break to find |
| Catalogue.LastLine | LargeScaleIndexer/SourceCode/app/voice_comparator.py:123-200 | the line appended after a newline is the last line read back |
| Catalogue.FirstBreakOfPrefix | LargeScaleIndexer/SourceCode/app/voice_comparator.py:200 | a break found inside a prefix is found at the same place in the whole text |
| Catalogue.SplitLinesStep | LargeScaleIndexer/SourceCode/app/voice_comparator.py:200 | splitlines takes the text up to the first break, skips CRLF as one break, and goes on with the rest |
| Catalogue.ConcatLines | LargeScaleIndexer/SourceCode/app/voice_comparator.py:123-200 | joining two texts with a newline splits into the lines of each |
| Catalogue.NewLineIsLast | LargeScaleIndexer/SourceCode/app/voice_comparator.py:123 | the updated catalogue ends with the new line |
| Catalogue.SplitUploadUrl | LargeScaleIndexer/SourceCode/app/voice_comparator.py:131-133 | the post URL and file name put back together are the URL, split just after its last "%2F" |
| Catalogue.BreakIsSpace | LargeScaleIndexer/SourceCode/app/voice_comparator.py:202 | every line break is whitespace to strip |
| Catalogue.SpacedLineUnbroken | LargeScaleIndexer/SourceCode/app/voice_comparator.py:108 | an index line built from fields without whitespace has no line break |
| Catalogue.IndexedLineSearched | LargeScaleIndexer/SourceCode/app/voice_comparator.py:123-200 | the search reads the cached catalogue: once the cache holds the uploaded catalogue (after a reload or `CatalogueCache.ModelManager.IndexRefreshing`), the new line is among the lines the search reads |
| Catalogue.SimilarityPercent | LargeScaleIndexer/SourceCode/app/voice_comparator.py:218-219 | a Hamming distance of 0 is exactly 100% similarity and of 128 exactly 0% |
| Catalogue.SimilarityOrder | LargeScaleIndexer/SourceCode/app/voice_comparator.py:218-219 | a smaller Hamming distance is exactly a higher similarity |
| Catalogue.CatalogueUpload | LargeScaleIndexer/SourceCode/app/voice_comparator.py:102-143 | the upload sends the stripped existing catalogue plus the new line, to the URL split at its last "%2F" |
| Catalogue.IndexedEntryFound | LargeScaleIndexer/SourceCode/app/voice_comparator.py:102-228 | once the cache holds the uploaded catalogue, an indexed sample the searcher may see is found by the search, scoring at least its own similarity |
| CatalogueCache.LoadPlan | LargeScaleIndexer/SourceCode/app/flask_main.py:160-190 | a full load fetches six catalogues, face then fingerprint then voice, synthetic before real; a real-only reload fetches just the three real ones; no key is loaded twice |
| CatalogueCache.LoadedElsewhere | LargeScaleIndexer/SourceCode/app/flask_main.py:160-193 | a key no load fills keeps its cached value, or stays absent, also when a raising request ends the loading |
| CatalogueCache.LoadedComplete | LargeScaleIndexer/SourceCode/app/flask_main.py:160-190 | when no request raises, every planned key holds its answer's text on status 200 and "" otherwise |
| CatalogueCache.ReloadKeepsSynthetic | LargeScaleIndexer/SourceCode/app/flask_main.py:224-229 | `/updateRealCatalogues` leaves the synthetic catalogues as they were loaded at startup |
| CatalogueCache.ModelManager.constructor | LargeScaleIndexer/SourceCode/app/flask_main.py:64-66 | startup fills an empty cache with a full load |
| CatalogueCache.ModelManager.GetCatalogue | LargeScaleIndexer/SourceCode/app/flask_main.py:198-199 | the cached text, and None exactly for a key never loaded |
| CatalogueCache.ModelManager.LoadOne | LargeScaleIndexer/SourceCode/app/flask_main.py:167-172 | one load caches the answer's text (or "" for a status other than 200) under its key, and changes nothing when the request raises |
| CatalogueCache.ModelManager.LoadModality | LargeScaleIndexer/SourceCode/app/flask_main.py:166-172 | one modality's block loads the synthetic catalogue (full load only) and then the real one; a raising request ends the loading there, otherwise the later loads continue from the new cache |
| CatalogueCache.ModelManager.LoadCatalogues | LargeScaleIndexer/SourceCode/app/flask_main.py:160-193 | the cache after the plan's loads in order, stopping at the first request that raises |
| CatalogueCache.ModelManager.IndexRefreshing | LargeScaleIndexer/SourceCode/app/voice_comparator.py:109-143 | corrected (see Findings): the upload is built from the cached real catalogue as indexing builds it, and the cache then holds the uploaded text under that key, nothing else changing |
| CatalogueCache.AsWrittenSecondIndexDropsFirst | LargeScaleIndexer/SourceCode/app/voice_comparator.py:109-122 | as written, from an empty cache two index calls upload "\n" + first and then "\n" + second, so the stored catalogue loses the first line |
| CatalogueCache.RefreshedIndexKeepsBoth | LargeScaleIndexer/SourceCode/app/voice_comparator.py:109-122 | corrected: with the cache refreshed after each upload, the second upload keeps the first line and ends with the second |
| CatalogueCache.EmptyUpdated | LargeScaleIndexer/SourceCode/app/voice_comparator.py:122 | updating an empty catalogue gives a newline then the line |
| CatalogueCache.BreakThenLine | LargeScaleIndexer/SourceCode/app/voice_comparator.py:122 | a newline then a line without breaks reads back as an empty line and that line |
| CatalogueCache.StrippedEndsWithLine | LargeScaleIndexer/SourceCode/app/voice_comparator.py:122 | an updated catalogue, stripped again before the next update, still ends in its new line |
| CatalogueCache.AppendKeepsLast | LargeScaleIndexer/SourceCode/app/voice_comparator.py:122 | updating a catalogue that ends in a line keeps that line and ends in the new one |
| CatalogueCache.StripUpdated | LargeScaleIndexer/SourceCode/app/voice_comparator.py:122 | stripping an updated catalogue whose line has no edge whitespace changes nothing, unless the existing text was blank |
| VoiceComparator.IndexVoice | LargeScaleIndexer/SourceCode/app/voice_comparator.py:102-145 | indexing fails exactly when no code could be computed; otherwise it returns the code and uploads the existing voice catalogue plus the line "<id> <code> <sensitivity>" to the configured URL split at its last "%2F" |
| VoiceComparator.SearchForMatchesVoice | LargeScaleIndexer/SourceCode/app/voice_comparator.py:192-240 | a failed catalogue fetch raises; otherwise the ranking of the real and synthetic catalogue lines by Hamming similarity |
| VoiceComparator.IndexedVoiceFound | LargeScaleIndexer/SourceCode/app/voice_comparator.py:102-240 | once the cache holds the uploaded catalogue, either the indexed id is in the search's top list or every listed score is at least its own similarity |
| FingerComparator.IndexFinger | LargeScaleIndexer/SourceCode/app/finger_comparator.py:89-131 | indexing fails exactly when no code could be computed; otherwise it returns the code and uploads the existing fingerprint catalogue plus the new line to the configured URL split at its last "%2F" |
| FingerComparator.Offset | LargeScaleIndexer/SourceCode/app/finger_comparator.py:219 | every score after the first is lowered by 5, the first kept |
| FingerComparator.OffsetDescending | LargeScaleIndexer/SourceCode/app/finger_comparator.py:211-219 | offsetting a descending list keeps it descending and puts the first score at least 5 above the second |
| FingerComparator.SearchForMatchesFinger | LargeScaleIndexer/SourceCode/app/finger_comparator.py:166-223 | a failed catalogue fetch raises; otherwise the fingerprint result of the real and synthetic catalogue lines |
| FingerComparator.FingerResultMeaning | LargeScaleIndexer/SourceCode/app/finger_comparator.py:166-223 | at most topN distinct names with descending scores, the first its best similarity and each later one its best similarity minus 5 |
| FaceComparator.ParseFaceLine | LargeScaleIndexer/SourceCode/app/comparator.py:401-410 | an empty line or one of fewer than three comma-separated fields is skipped; otherwise its first three fields give id, code and a case-insensitive "true" flag |
| FaceComparator.CommaRoundTrip | LargeScaleIndexer/SourceCode/app/comparator.py:262-410 | a line written by face indexing parses back to the same id, code and sensitivity |
| FaceComparator.CommaLineUnbroken | LargeScaleIndexer/SourceCode/app/comparator.py:262 | a face index line built from fields without line breaks has none |
| FaceComparator.IndexFace | LargeScaleIndexer/SourceCode/app/comparator.py:256-290 | indexing fails exactly when the encryption service gives no code; otherwise it uploads the existing face catalogue plus "<id>,<code>,<sensitivity>" to the configured URL split at its last "%2F" |
| FaceComparator.CollectedFailureSticks | LargeScaleIndexer/SourceCode/app/comparator.py:399-420 | once a line fails (an id that is not an integer, a failed decryption), the whole collection fails with that error |
| FaceComparator.CollectLines | LargeScaleIndexer/SourceCode/app/comparator.py:398-420 | the loop over the lines computes exactly the collected (id, decrypted code) pairs |
| FaceComparator.CollectedIncludes | LargeScaleIndexer/SourceCode/app/comparator.py:399-420 | every visible entry's parsed id and decrypted code are collected |
| FaceComparator.CollectedOnlyVisible | LargeScaleIndexer/SourceCode/app/comparator.py:399-420 | every collected pair comes from a visible line of the catalogues |
| FaceComparator.IndexedFaceCollected | LargeScaleIndexer/SourceCode/app/comparator.py:256-420 | once the cache holds the uploaded catalogue, a face indexed for a searcher who may see it is collected by the search |
| FaceComparator.PyIndex | LargeScaleIndexer/SourceCode/app/comparator.py:438 | Python list indexing: defined exactly from -len to len-1, negative indices counting from the end |
| FaceComparator.AsWrittenNamesShifted | LargeScaleIndexer/SourceCode/app/comparator.py:438 | as written, ids [7, 8] name column 0 as 8 and column 1 as 7: each name is taken one column too early |
| FaceComparator.ColumnNames | LargeScaleIndexer/SourceCode/app/comparator.py:422-438 | corrected: each in-range column is named by the id of its own catalogue entry, and every name is a catalogue id |
| FaceComparator.Ids | LargeScaleIndexer/SourceCode/app/comparator.py:422 | the ids of the collected pairs, position by position |
| FaceComparator.SearchForMatchesFace | LargeScaleIndexer/SourceCode/app/comparator.py:394-440 | corrected (see Findings): a failed catalogue fetch raises; a failing line raises its error; otherwise the ranked columns named by their own ids |
| CmsCommon.UseCases | CaseManagementSystem/cmsAPI/src/services/caseService.js:95-111 | only cases carrying a truthy uc_template are listed, each one a listed case |
| CmsCommon.UseCasesComplete | CaseManagementSystem/cmsAPI/src/services/caseService.js:102-109 | every use-case case is listed |
| CmsCommon.UseCasesConcat | CaseManagementSystem/cmsAPI/src/services/caseService.js:95-110 | listing a concatenation lists each part in order |
| CmsCommon.LastUseCase | CaseManagementSystem/cmsAPI/src/services/caseService.js:146-165 | a found case is one of the use-case cases |
| CmsCommon.LastUseCaseIsLastListed | CaseManagementSystem/cmsAPI/src/services/caseService.js:152-165 | getCase finds exactly the last case the listing would show, or undefined when it shows none |
| CmsCommon.FirstStop | CaseManagementSystem/cmsAPI/src/services/caseService.js:263-267 | the loop stops at the first file that has the id or is null (reading its id raises), every earlier file being a non-null file with another id |
| CmsCommon.GetCaseEvidence | CaseManagementSystem/cmsAPI/src/services/caseService.js:262-269 | a TypeError exactly when a null file comes before every file with the id; undefined exactly when no file is null or has the id; otherwise the first file that has it |
| CmsCommon.CountOrZero | CaseManagementSystem/cmsAPI/src/services/caseService.js:132 | count \|\| 0: the count when present, else 0; the result is truthy or 0 |
| CmsCommon.NumberOr | CaseManagementSystem/cmsAPI/src/controllers/caseController.js:60-61 | Number(x) \|\| fallback: a missing or zero parameter takes the fallback, any other number is kept |
| CmsCommon.Paginate | CaseManagementSystem/cmsAPI/src/controllers/caseController.js:60-86 | the page starts at page times items per page, items per page is never 0, and there is a next page exactly when the page count exceeds page + 1 |
| CmsCommon.PaginateMeaning | CaseManagementSystem/cmsAPI/src/controllers/caseController.js:64-86 | for whole numbers the page count is the ceiling of total over items per page, and a next page exists exactly when the items after this page are fewer than the total |
| CmsCommon.CeilDiv | CaseManagementSystem/cmsAPI/src/controllers/caseController.js:78 | Math.ceil of the quotient is the integer ceiling division |
| CmsCommon.StripIntermediateResults | CaseManagementSystem/cmsAPI/src/controllers/caseController.js:71-75 | each listed case becomes its stripped form: its task and every variable except a truthy intermediate_results, which is removed |
| CmsCommon.GetCases | CaseManagementSystem/cmsAPI/src/controllers/caseController.js:59-88 | the listing has the paging of the count and, entry by entry, each listed case stripped of its intermediate results, and the count as total |
| CmsCommon.ServerError | CaseManagementSystem/cmsAPI/src/controllers/caseController.js:89-94 | a failure is answered 500 with the error's message, and exactly with "Internal Server error" when it has none |
| CmsCommon.GetCaseReply | CaseManagementSystem/cmsAPI/src/controllers/caseController.js:103-119 | 404 with "Case with businessKey ... not found" exactly when no case is found; otherwise 200 whose body is the found case |
| CmsCommon.EvidenceFiles | CaseManagementSystem/cmsAPI/src/services/caseService.js:263 | the files iterated are the items of an array value, or the characters of a string value (none of them a file); anything else raises |
| CmsCommon.GetEvidenceReply | CaseManagementSystem/cmsAPI/src/controllers/caseController.js:266-308 | no case is 404, a case without evidence 400; evidence that cannot be iterated is 500 with its error; a null file before the match makes getCaseEvidence raise, answered 500; a file is streamed exactly when getCaseEvidence finds it, and is that file; an unknown id is 404 |
| CaseService.TaskCases | CaseManagementSystem/cmsAPI/src/services/caseService.js:95-109 | one case per task, in task order |
| CaseService.GetAllCases | CaseManagementSystem/cmsAPI/src/services/caseService.js:79-112 | the loop lists exactly the use-case cases of the tasks, in order |
| CaseService.GetCase | CaseManagementSystem/cmsAPI/src/services/caseService.js:140-166 | the loop returns exactly the last use-case case of the business key's tasks, or undefined |
| CaseService.GetCaseIsLastListed | CaseManagementSystem/cmsAPI/src/services/caseService.js:140-166 | getCase returns the last case getAllCases would list for the same tasks |
| CaseService.TaskName | CaseManagementSystem/cmsAPI/src/services/caseService.js:178 | reading the task name succeeds exactly when it is a string |
| CaseService.PreviousEvidence | CaseManagementSystem/cmsAPI/src/services/caseService.js:180-182 | an absent or null evidence variable raises; an evidence array is read as its items |
| CaseService.AddCaseEvidence | CaseManagementSystem/cmsAPI/src/services/caseService.js:173-203 | no case raises; a task named with Step2 is completed with the new evidence; any other task succeeds exactly when its previous evidence can be read, and is then updated with the new evidence followed by the previous evidence |
| CaseService.AddedEvidenceKeepsPrevious | CaseManagementSystem/cmsAPI/src/services/caseService.js:180-182 | merged evidence starts with the new files and then keeps every previous file in order |
| CaseService.UpdateCaseAsWritten | CaseManagementSystem/cmsAPI/src/services/caseService.js:210-235 | as written: retries from the given attempt until success or attempt 5, every earlier attempt having failed |
| CaseService.UpdateCase | CaseManagementSystem/cmsAPI/src/services/caseService.js:210-235 | corrected: retries until success or maxRetries, every earlier attempt having failed, giving up only at maxRetries |
| CaseService.UpdateCaseDefaultAgrees | CaseManagementSystem/cmsAPI/src/services/caseService.js:210-235 | with the default maxRetries the written and corrected retries behave alike |
| CaseService.AsWrittenIgnoresMaxRetries | CaseManagementSystem/cmsAPI/src/services/caseService.js:223-233 | as written, maxRetries 2 with every attempt failing gives up only at attempt 5, answering the max-retries message; corrected it gives up at 2 |
| CaseService.MergeStep | CaseManagementSystem/cmsAPI/src/services/caseService.js:318-330 | an empty step takes the results, an array step has them appended, any other step is deep-merged; other steps are unchanged |
| CaseService.InsertStepIsMergeStep | CaseManagementSystem/cmsAPI/src/services/caseService.js:318-388 | insertResults files results into a step exactly as advanceCase does |
| CaseService.ResultsObject | CaseManagementSystem/cmsAPI/src/services/caseService.js:315-377 | missing intermediate results start as an empty value object; present ones are used as they are |
| CaseService.WithStep | CaseManagementSystem/cmsAPI/src/services/caseService.js:315-331 | the results gain the merged step and lose their type, all else kept |
| CaseService.StepKey | CaseManagementSystem/cmsAPI/src/services/caseService.js:296 | an unset step is used as the property "undefined" |
| CaseService.AdvanceCase | CaseManagementSystem/cmsAPI/src/services/caseService.js:295-356 | no task raises "Case with businessKey: ... does not exist"; a template mismatch returns false; a task whose lower-cased name contains the step completes with the merged results; a matching case not at that step is not completed |
| CaseService.InsertResults | CaseManagementSystem/cmsAPI/src/services/caseService.js:365-394 | no case does nothing; otherwise the update fails exactly when the results object fails, carries intermediate_results alone, and that value is the case's results with the data merged into the step and `type` dropped |
| CaseService.InsertResultsAgreesWithAdvance | CaseManagementSystem/cmsAPI/src/services/caseService.js:315-392 | when advanceCase would complete a step, insertResults writes the same intermediate results |
| HistoryService.Formatted | CaseManagementSystem/cmsAPI/src/services/historyService.js:196-197 | a formatted variable is an object holding only type, value, valueInfo, state and createTime |
| HistoryService.FormatCaseVars | CaseManagementSystem/cmsAPI/src/services/historyService.js:193-200 | the loop builds exactly the formatted object of the instances |
| HistoryService.FormattedVarsKeys | CaseManagementSystem/cmsAPI/src/services/historyService.js:195-197 | a name is a key exactly when some instance has it |
| HistoryService.FormattedVarsLast | CaseManagementSystem/cmsAPI/src/services/historyService.js:195-197 | a name holds the kept fields of its last instance |
| HistoryService.ProcessCases | CaseManagementSystem/cmsAPI/src/services/historyService.js:45-76 | one case per finished process, in order |
| HistoryService.ProcessIsUseCase | CaseManagementSystem/cmsAPI/src/services/historyService.js:53-54 | a finished process is a use case exactly when one of its instances is named uc_template |
| HistoryService.FormattedIsObject | CaseManagementSystem/cmsAPI/src/services/historyService.js:197 | every formatted variable is an object, hence truthy |
| HistoryService.GetAllCases | CaseManagementSystem/cmsAPI/src/services/historyService.js:45-78 | the loop lists exactly the use-case cases of the finished processes, in order |
| HistoryService.GetCase | CaseManagementSystem/cmsAPI/src/services/historyService.js:107-152 | the loop returns exactly the last use-case case of the business key's processes, or undefined |
| HistoryService.DeleteCase | CaseManagementSystem/cmsAPI/src/services/historyService.js:174-185 | no case raises "Task with businessKey:... does not exist"; otherwise the process id is deleted |
| CaseController.NewCaseVars | CaseManagementSystem/cmsAPI/src/controllers/caseController.js:42 | the new case keeps every variable and gains a fresh businessKey |
| CaseController.RequestedTemplate | CaseManagementSystem/cmsAPI/src/controllers/caseController.js:33 | reading uc_template.value raises exactly when uc_template is missing or null |
| CaseController.CreateCase | CaseManagementSystem/cmsAPI/src/controllers/caseController.js:30-52 | a missing template raises; a template not in caseTypes is 400 "Use case ... not supported by the CMS"; a created uc_3 case is 201 with its business key |
| CaseController.InheritedTemplateNotRefused | CaseManagementSystem/cmsAPI/src/controllers/caseController.js:33 | the in operator also accepts inherited keys: template "toString" is not refused with 400 |
| CaseController.Put | CaseManagementSystem/cmsAPI/src/controllers/caseController.js:195-200 | an index within a split list sets the field, one beyond leaves it out |
| CaseController.EvidenceRecordPairs | CaseManagementSystem/cmsAPI/src/controllers/caseController.js:189-203 | each record carries its id, url, mime type, description and tag |
| CaseController.EvidenceRecordOptional | CaseManagementSystem/cmsAPI/src/controllers/caseController.js:197-200 | title, source, comment and datetime are set exactly when their lists are long enough |
| CaseController.AddEvidence | CaseManagementSystem/cmsAPI/src/controllers/caseController.js:148-215 | no case is 404; files and descriptions of different counts, or no files, are 400; tags of a different count are 400; otherwise the records are posted through addCaseEvidence and answered 204 |
| CaseController.UpdateCaseHandler | CaseManagementSystem/cmsAPI/src/controllers/caseController.js:224-257 | no case is 404; no variables is 400; businessKey or uc_template among them is 400; only otherwise are the variables written, answered 204 |
| CaseController.WithoutEvidence | CaseManagementSystem/cmsAPI/src/controllers/caseController.js:340-344 | the filter raises exactly when some file is null; otherwise it keeps exactly the files whose id differs |
| CaseController.WithoutEvidenceConcat | CaseManagementSystem/cmsAPI/src/controllers/caseController.js:340-344 | filtering a concatenation raises exactly when filtering a part does, and otherwise filters each part |
| CaseController.DeleteEvidence | CaseManagementSystem/cmsAPI/src/controllers/caseController.js:317-363 | the getEvidence refusals, removing nothing; a found file is removed, and then a null file in the evidence makes the filter raise, answered 500 with nothing written back; otherwise 205, writing back the evidence without the id's files and without its type |
| CaseController.DeletedEvidenceGone | CaseManagementSystem/cmsAPI/src/controllers/caseController.js:340-348 | after deletion no file has the id, every other file remains, and the list is shorter |
| CaseController.RemovesOne | CaseManagementSystem/cmsAPI/src/controllers/caseController.js:340-344 | filtering out a present id, when it does not raise, shortens the list |
| CaseController.AdvanceHandler | CaseManagementSystem/cmsAPI/src/controllers/caseController.js:399-431 | an unknown step is 400 "... is not a recognised analysis step to advance"; a missing template raises; a completion is advanceCase's; results go to insertResults only when truthy and nothing was completed |
| CaseController.AsWrittenNeverCompletes | CaseManagementSystem/cmsAPI/src/controllers/caseController.js:408-418 | as written, a task whose name does not contain "undefined" is never completed |
| CaseController.CorrectedCompletesAtStep | CaseManagementSystem/cmsAPI/src/controllers/caseController.js:399-424 | corrected, a matching case at the requested step completes with the merged results and is answered 200 |
| Uc3Controller.UrlKey | CaseManagementSystem/cmsAPI/src/controllers/uc3Controller.js:224-226 | faceId, voiceId and fingerprintId are rewritten to sampleFaceUrl, sampleVoiceUrl and sampleFingerprintUrl |
| Uc3Controller.Target | CaseManagementSystem/cmsAPI/src/controllers/uc3Controller.js:223-229 | no query field is stored under an id key |
| Uc3Controller.EvidenceUrl | CaseManagementSystem/cmsAPI/src/controllers/uc3Controller.js:227 | a falsy id gives ""; any other id gives the evidence URL of the case on the host |
| Uc3Controller.TransformIdsToUrls | CaseManagementSystem/cmsAPI/src/controllers/uc3Controller.js:217-233 | the loop over the query's entries computes exactly the rewritten URL object |
| Uc3Controller.RewrittenKeys | CaseManagementSystem/cmsAPI/src/controllers/uc3Controller.js:218-231 | the result always has the three URL keys, never an id key, a key for every query field, and no other keys |
| Uc3Controller.RewrittenLast | CaseManagementSystem/cmsAPI/src/controllers/uc3Controller.js:221-231 | each key holds what its last writer in entry order put there |
| Uc3Controller.ResultKeyReadsBack | CaseManagementSystem/cmsAPI/src/controllers/uc3Controller.js:35-36 | the result key is the three ids joined by commas and splits back into them when none contains a comma |
| Uc3Controller.MatchResults | CaseManagementSystem/cmsAPI/src/controllers/uc3Controller.js:36-41 | the stored match results are an object with the result key alone, holding the match result |
| Uc3Controller.EntriesOf | CaseManagementSystem/cmsAPI/src/controllers/uc3Controller.js:221 | Object.entries lists only the object's own fields, each with its value, and all of them; with every listed key present, the i-th entry is the i-th key |
| Uc3Controller.EntriesOfEnumerated | CaseManagementSystem/cmsAPI/src/controllers/uc3Controller.js:221 | under an enumeration order listing each own key once, Object.entries gives every field of the object exactly once |
| Uc3Controller.Record | CaseManagementSystem/cmsAPI/src/controllers/uc3Controller.js:36-43 | the reply is 200 with the result exactly when advanceCase succeeds, its error as 500 otherwise; results are inserted exactly when the case did not advance and the result is truthy |
| Uc3Controller.Match | CaseManagementSystem/cmsAPI/src/controllers/uc3Controller.js:27-48 | a failed match is 500; otherwise the match result is recorded under the result key for the matching step |
| Uc3Controller.MatchRecordsUnderIds | CaseManagementSystem/cmsAPI/src/controllers/uc3Controller.js:35-41 | inserted match results go to the matching step, under the result key alone, holding the reply |
| Uc3Controller.Uc3Cases | CaseManagementSystem/cmsAPI/src/controllers/uc3Controller.js:108 | exactly the uc_3 cases are searched |
| Uc3Controller.RequestGroups | CaseManagementSystem/cmsAPI/src/controllers/uc3Controller.js:116-117 | the searched request groups are an object, array or null, as typeof "object" admits |
| Uc3Controller.LowerProp | CaseManagementSystem/cmsAPI/src/controllers/uc3Controller.js:132-134 | lower-casing a property succeeds exactly when it is a string |
| Uc3Controller.Answers | CaseManagementSystem/cmsAPI/src/controllers/uc3Controller.js:132-134 | a stored request answers exactly when from, recipient and resource index agree ignoring case; an unreadable from raises |
| Uc3Controller.FindInGroup | CaseManagementSystem/cmsAPI/src/controllers/uc3Controller.js:129-139 | the loop over one group's requests computes exactly the group search |
| Uc3Controller.FindInCase | CaseManagementSystem/cmsAPI/src/controllers/uc3Controller.js:120-143 | the loop over one case's groups computes exactly the case search |
| Uc3Controller.FindRequest | CaseManagementSystem/cmsAPI/src/controllers/uc3Controller.js:114-147 | the loop over the cases computes exactly the whole search, stopping at the first answer |
| Uc3Controller.SearchRequestsFound | CaseManagementSystem/cmsAPI/src/controllers/uc3Controller.js:129-138 | a hit in a group is reported with the case key and group, and the first request the response answers is found, every earlier one readable and unanswered |
| Uc3Controller.SearchRequestsNone | CaseManagementSystem/cmsAPI/src/controllers/uc3Controller.js:129-139 | no hit means every request of the group was readable and did not answer |
| Uc3Controller.SearchGroupsFound | CaseManagementSystem/cmsAPI/src/controllers/uc3Controller.js:120-138 | a hit in a case carries its key and names the first array group holding an answered request; every earlier group was passed over |
| Uc3Controller.SearchGroupsNone | CaseManagementSystem/cmsAPI/src/controllers/uc3Controller.js:120-143 | no hit means no request of any array group answered |
| Uc3Controller.SearchCasesFound | CaseManagementSystem/cmsAPI/src/controllers/uc3Controller.js:114-138 | a hit lies in the first case holding an answered request: it has request groups and the reported business key, the reported group is its first answering one, and every earlier case was passed over |
| Uc3Controller.SearchCasesNone | CaseManagementSystem/cmsAPI/src/controllers/uc3Controller.js:114-147 | no hit means every searched case had a readable business key and no request of it answered |
| Uc3Controller.Copied | CaseManagementSystem/cmsAPI/src/controllers/uc3Controller.js:105 | the response gains the request's resIndex and keeps every other field |
| Uc3Controller.ReceiveResponse | CaseManagementSystem/cmsAPI/src/controllers/uc3Controller.js:101-166 | a non-object response or null request raises; a failed search is 500; no hit or no truthy business key is 500 "Case containing a matching request not found"; a failed receive is 500; otherwise the response is recorded under its evidence group for the response step |
| Auth.InternalAuth | CaseManagementSystem/cmsAPI/src/middleware/auth.js:11-19 | a request passes exactly when its header is "InternalWS " plus the configured token; every other one is 403 "Internal token mismatch" |
| Auth.AuthChecker | CaseManagementSystem/cmsAPI/src/middleware/auth.js:25-33 | a header mentioning InternalWS goes to the internal check; every other request, a missing header included, goes to Keycloak |
| Auth.PassesOnlyWithToken | CaseManagementSystem/cmsAPI/src/middleware/auth.js:11-33 | a request gets past the middleware without Keycloak exactly when it carries the configured internal header |
| Auth.AsWrittenUnsetTokenPasses | CaseManagementSystem/cmsAPI/src/middleware/auth.js:13 | as written, with no token configured, the fixed header "InternalWS undefined" passes |
| Auth.InternalAuthChecked | CaseManagementSystem/cmsAPI/src/middleware/auth.js:11-19 | corrected: passing needs a configured token and the header built from it |
| Auth.AuthCheckerChecked | CaseManagementSystem/cmsAPI/src/middleware/auth.js:25-33 | corrected dispatch: Keycloak exactly as before, the checked internal test otherwise |
| Auth.CheckedNeedsToken | CaseManagementSystem/cmsAPI/src/middleware/auth.js:11-33 | corrected, nothing passes without a configured token, and with one the checker agrees with the written one |

## Left out

- Network transport, authentication cookies, the Keycloak strategy, the ZIP codec, MIME sniffing, Base64, JSON parsing, AES, BCH decoding, OpenCV and scikit-image, and the neural networks (PyTorch and TensorFlow). These are function-typed parameters whose results are taken as given, because none of them is deterministic code of this repository.
- The indexing throttle (a semaphore with two permits, plus sleeps) and the 2-second retry delay: concurrency and timing are outside a sequential model.
- Filesystem effects: temporary files, `fs.rmSync` of uploads and evidence files, and streaming a file to the HTTP response. The model records which file or directory is affected, not the effect.
- TensorEcc.StoreSuspectProfile: the uploaded file name is modelled as `suspectProfileId + ".zip.enc"`. Java first writes the bytes to a local file named by the id and then uses `new File(id).getName()`, the id's last path component (TensorECC.java:437-466). The two agree only for an id without a path separator; the local file write is not modelled.
- `TENSORConnectorRegistry.getIdByPod` scans in HashMap order. `ConnectorRegistry.TensorConnectorRegistry.GetIdByPod` promises only some connector with that pod, not which one.
- ConnectorRegistry.TensorConnectorRegistry.GetAllConnectors: `getAllConnectors` returns the live backing map. The model returns its value, so changes made through the returned map are not captured.
- Python's `round(x, 2)` on similarities and the floating-point score arithmetic. `Catalogue.SimilarityPercent` computes in exact reals.
- `numpy.argsort` is a parameter, constrained only to produce a descending ranking. Among equal scores the order is unspecified, as it is in the code.
- `finger_comparator.py` with an empty result list: `top_similarity[1:] -= 5` on an empty array is a no-op, and the model treats it as one.
- FaceComparator.SearchForMatchesFace: `comparator.py` `PqDistRet_Ortho_for_eval` and the tensor arithmetic are a ranking parameter (`rank`) of the member, and it returns only the ranked names. The similarity scores that come with them are not modelled, so neither is the use `/searchForMatches` makes of them (flask_main.py:367-392): rounding them, and dropping the face matches when the score list is empty.
- FaceComparator.SearchForMatchesFace: with no visible catalogue line the model answers the ranking of no codes (`Ok` of the named columns, empty for an empty ranking). The code builds an empty tensor there, and `torch.cat` with the similarity column raises.
- Case mapping (`upper`, `lower`, `capitalize`, `toLowerCase`) is modelled on ASCII letters only.
- `model_manager.get_catalogue` answering None (a catalogue never loaded) is modelled as no catalogue, which the search turns into the raised request error.
- Catalogue.IndexedLineSearched, Catalogue.IndexedEntryFound, VoiceComparator.IndexedVoiceFound and FaceComparator.IndexedFaceCollected: these state what a search finds once the cache holds the uploaded catalogue. As written, indexing never refreshes the in-memory cache, so a search finds the new entry only after `/updateRealCatalogues` reloads it (see Findings). `CatalogueCache.ModelManager.IndexRefreshing` models the refreshed cache.
- The deep merge of `caseService.advanceCase` and `insertResults` (the `deepmerge` package) is a parameter.
- CaseService.ResultsObject: an `intermediate_results.value` that is an array is a TypeError in the model. In JavaScript, `value[step] = results` on an array does not raise; the property is set and then silently lost when the value is serialized to the engine (caseService.js:318-321). The model does not capture that lost write.
- CaseService.TemplateMatches: the code compares `uc_template.value == template` loosely (caseService.js:313). The model compares strictly, with a string, so a number or boolean template value that JavaScript coerces to the same text is not matched.
- `caseService.createCase`, `caseService.deleteCase` and `caseService.closeCase`, and the controllers' `closeCase`, `deleteCase` and `createResponse`: each is an engine or service call with no rule of its own beyond what `HistoryService.DeleteCase` and `GetCaseReply` already model.
- `uc3Controller` `createRequest`, `dataExchange` and `completeAnalysis`: each forwards to a service and then follows the same advance-or-insert pattern as `Uc3Controller.Record`.
- Un-awaited `insertResults` and `updateCase` calls: their errors are ignored by the code, and the model does not represent the dropped promises.
- `getAllCases` failing inside `receiveResponse`: the listed cases are a parameter of `Uc3Controller.ReceiveResponse`.
- Uc3Controller.Match: the query body is a map of named fields. A body that is an array (which `Object.entries` lists by index, uc3Controller.js:221) or null (which raises a TypeError inside the try, answered 500) cannot be expressed, so the model does not capture those two requests.
- `Uc3Controller.ReceiveResponse`: an array-typed `response` would accept the `resIndex` property without raising, but the model treats it as a type error. An error's message is modelled as the constant "TypeError".
- CmsCommon.GetCaseEvidence: JavaScript's loose `==` is modelled for string ids only. Numeric and other ids compared loosely are not modelled.
- CmsCommon.JsTruthy: NaN is not a value of the JSON model. Non-integral numbers are rendered by their integer part where they become text.
- `__proto__` as a property key, which JavaScript objects treat specially.
- The process environment (host, port, token, catalogue URLs) is a set of parameters.

## Findings

| source | as written | input that shows it | evidently intended | confidence | as-written member | corrected member |
|---|---|---|---|---|---|---|
| LargeScaleIndexer/SourceCode/app/dhn.py:292-298 | in validation mode an overrun sets `start = n_samples - batch_size`, which is negative when the batch exceeds the dataset, and the Python slice then wraps from the end | 3 samples, validation batch size 5: the batch is `perm[-2:3]`, the indices [1, 2], and sample 0 is never encoded into the database | the last batch clamps to the whole dataset, starting at max(0, n - batch) | high, not executed | DatasetBatching.AsWrittenSkipsSamples | DatasetBatching.CreateDatabase |
| LargeScaleIndexer/SourceCode/app/comparator.py:438 | result column `i` is named `folder_names[i-1]`, though the catalogue columns come first and the query columns are appended after them (line 430) | catalogue ids [7, 8]: column 0 is named 8 and column 1 is named 7 | column `i` is named `folder_names[i]` | medium, not executed | FaceComparator.AsWrittenNamesShifted | FaceComparator.ColumnNames |
| CaseManagementSystem/cmsAPI/src/services/caseService.js:233 | the retry calls `updateCase(businessKey, data, ++retry)` without `maxRetries`, so every retry uses the default 5 | maxRetries 2 and every attempt failing: the code gives up at attempt 5, not at 2 | the retry passes `maxRetries` on | high, not executed | CaseService.AsWrittenIgnoresMaxRetries | CaseService.UpdateCase |
| CaseManagementSystem/cmsAPI/src/controllers/caseController.js:410 | the step given to `advanceCase` is `req.params.step`, but the `/:businessKey/advance` route has no `step` parameter, so it is undefined | any task whose name does not contain "undefined": the route never completes it, and results only go through `insertResults` | the validated query step is passed | high, not executed | CaseController.AsWrittenNeverCompletes | CaseController.CorrectedCompletesAtStep |
| CaseManagementSystem/cmsAPI/src/middleware/auth.js:13 | the expected header is `'InternalWS ' + process.env.INTERNAL_WS_TOKEN`, which is "InternalWS undefined" when the token is unset | no INTERNAL_WS_TOKEN configured, header "InternalWS undefined": the request passes without Keycloak | an unset token refuses every internal request | medium, not executed | Auth.AsWrittenUnsetTokenPasses | Auth.CheckedNeedsToken |
| LargeScaleIndexer/SourceCode/app/voice_comparator.py:109-122 | indexing builds the upload from the in-memory cache (`get_catalogue`, flask_main.py:198-199) and never writes the cache back, which is reloaded only at startup and by `/updateRealCatalogues` (flask_main.py:224-229); `indexFinger` (finger_comparator.py:97) and `indexFace` (comparator.py:265) do the same | an empty cache, then indexing line l1 and line l2: the first upload is "\n" + l1, the second "\n" + l2 replaces it, and l1 is lost from the stored catalogue | the cache is refreshed with the uploaded text after each upload | medium, not executed | CatalogueCache.AsWrittenSecondIndexDropsFirst | CatalogueCache.RefreshedIndexKeepsBoth |
