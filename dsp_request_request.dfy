/**
 * The consumer's access-request form (`DspRequestRequest`): ten nullable fields set by
 * its constructors and changed one at a time by its setters. Dafny's field reads stand
 * for the getters, each of which returns its field unchanged.
 */
module DspRequestDomain {
  import opened Wrappers
  import opened Octets

  /** An uploaded multipart file: its original file name (possibly null) and its bytes. */
  datatype Upload = Upload(originalFilename: Option<string>, bytes: seq<byte>)

  class DspRequestRequest {
    var providerId: Option<string>
    var consumerId: Option<string>
    var suspectProfileId: Option<string>
    var facialImageSimilarityScore: Option<string>
    var fingerprintSimilarityScore: Option<string>
    var voiceprintSimilarityScore: Option<string>
    var descriptiveText: Option<string>
    var faceFile: Option<Upload>
    var voiceFile: Option<Upload>
    var fingerprintFile: Option<Upload>

    /** The no-argument constructor: every field null. */
    constructor Empty()
      ensures providerId.None? && consumerId.None? && suspectProfileId.None?
      ensures facialImageSimilarityScore.None? && fingerprintSimilarityScore.None? && voiceprintSimilarityScore.None?
      ensures descriptiveText.None? && faceFile.None? && voiceFile.None? && fingerprintFile.None?
    {
      providerId, consumerId, suspectProfileId := None, None, None;
      facialImageSimilarityScore, fingerprintSimilarityScore, voiceprintSimilarityScore := None, None, None;
      descriptiveText, faceFile, voiceFile, fingerprintFile := None, None, None, None;
    }

    /** The full constructor: each argument in its same-named field. */
    constructor (providerId: Option<string>, consumerId: Option<string>, suspectProfileId: Option<string>,
                 facialImageSimilarityScore: Option<string>, fingerprintSimilarityScore: Option<string>,
                 voiceprintSimilarityScore: Option<string>, descriptiveText: Option<string>,
                 faceFile: Option<Upload>, voiceFile: Option<Upload>, fingerprintFile: Option<Upload>)
      ensures this.providerId == providerId && this.consumerId == consumerId
      ensures this.suspectProfileId == suspectProfileId
      ensures this.facialImageSimilarityScore == facialImageSimilarityScore
      ensures this.fingerprintSimilarityScore == fingerprintSimilarityScore
      ensures this.voiceprintSimilarityScore == voiceprintSimilarityScore
      ensures this.descriptiveText == descriptiveText
      ensures this.faceFile == faceFile && this.voiceFile == voiceFile && this.fingerprintFile == fingerprintFile
    {
      this.providerId := providerId;
      this.consumerId := consumerId;
      this.suspectProfileId := suspectProfileId;
      this.facialImageSimilarityScore := facialImageSimilarityScore;
      this.fingerprintSimilarityScore := fingerprintSimilarityScore;
      this.voiceprintSimilarityScore := voiceprintSimilarityScore;
      this.descriptiveText := descriptiveText;
      this.faceFile := faceFile;
      this.voiceFile := voiceFile;
      this.fingerprintFile := fingerprintFile;
    }

    // Each setter may change only its own field, as its frame says.

    method SetProviderId(providerId: Option<string>)
      modifies this`providerId
      ensures this.providerId == providerId
    {
      this.providerId := providerId;
    }

    method SetConsumerId(consumerId: Option<string>)
      modifies this`consumerId
      ensures this.consumerId == consumerId
    {
      this.consumerId := consumerId;
    }

    method SetSuspectProfileId(suspectProfileId: Option<string>)
      modifies this`suspectProfileId
      ensures this.suspectProfileId == suspectProfileId
    {
      this.suspectProfileId := suspectProfileId;
    }

    method SetFacialImageSimilarityScore(facialImageSimilarityScore: Option<string>)
      modifies this`facialImageSimilarityScore
      ensures this.facialImageSimilarityScore == facialImageSimilarityScore
    {
      this.facialImageSimilarityScore := facialImageSimilarityScore;
    }

    method SetFingerprintSimilarityScore(fingerprintSimilarityScore: Option<string>)
      modifies this`fingerprintSimilarityScore
      ensures this.fingerprintSimilarityScore == fingerprintSimilarityScore
    {
      this.fingerprintSimilarityScore := fingerprintSimilarityScore;
    }

    method SetVoiceprintSimilarityScore(voiceprintSimilarityScore: Option<string>)
      modifies this`voiceprintSimilarityScore
      ensures this.voiceprintSimilarityScore == voiceprintSimilarityScore
    {
      this.voiceprintSimilarityScore := voiceprintSimilarityScore;
    }

    /** `setDescriptiveText` as written: it stores its argument in the voiceprint score and leaves the text alone. */
    method SetDescriptiveText(descriptiveText: Option<string>)
      modifies this`voiceprintSimilarityScore
      ensures this.voiceprintSimilarityScore == descriptiveText
      ensures this.descriptiveText == old(this.descriptiveText)
    {
      this.voiceprintSimilarityScore := descriptiveText;
    }

    method SetFaceFile(faceFile: Option<Upload>)
      modifies this`faceFile
      ensures this.faceFile == faceFile
    {
      this.faceFile := faceFile;
    }

    method SetVoiceFile(voiceFile: Option<Upload>)
      modifies this`voiceFile
      ensures this.voiceFile == voiceFile
    {
      this.voiceFile := voiceFile;
    }

    method SetFingerprintFile(fingerprintFile: Option<Upload>)
      modifies this`fingerprintFile
      ensures this.fingerprintFile == fingerprintFile
    {
      this.fingerprintFile := fingerprintFile;
    }
  }
}
