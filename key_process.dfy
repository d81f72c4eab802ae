/**
 * Biometric file encryption (`main_v1_zip.py`): an enrolment image yields a descriptor,
 * the fuzzy extractor turns it into a key and helper data, and the file is encrypted
 * with AES under the key fitted to 32 bytes; decryption re-derives the key from a
 * verification image and the helper data. AES, the randomness and the face landmark
 * extraction are parameters; the fingerprint path runs through the minutiae model.
 */
module KeyProcess {
  import opened Wrappers
  import opened Octets
  import opened Strings
  import opened FuzzyExtraction
  import opened FingerBioUtils

  /** `adjust_key_length`: zero-pad a short key, truncate a long one. */
  function AdjustKeyLength(key: seq<byte>, desiredLength: nat): (r: seq<byte>)
    ensures |r| == desiredLength
    ensures |key| >= desiredLength ==> r == key[..desiredLength]
    ensures |key| < desiredLength ==> r[..|key|] == key && forall i | |key| <= i < desiredLength :: r[i] == 0
  {
    if |key| < desiredLength then key + seq(desiredLength - |key|, _ => 0)
    else if |key| > desiredLength then key[..desiredLength]
    else key
  }

  /** A key of the desired length is kept as it is, so adjusting twice is adjusting once. */
  lemma AdjustKeyLengthIdempotent(key: seq<byte>, desiredLength: nat)
    ensures |key| == desiredLength ==> AdjustKeyLength(key, desiredLength) == key
    ensures AdjustKeyLength(AdjustKeyLength(key, desiredLength), desiredLength) == AdjustKeyLength(key, desiredLength)
  {
  }

  /** The AES-256 key length the process fits keys to. */
  const AesKeyLength := 32

  /** A thinned fingerprint image, as `preprocess_fingerprint` returns it: a proper 2-D array. */
  type Skeleton = img: Image | Rectangular(img) witness []

  datatype FeatureExtraction = FeatureExtraction(
    faceDescriptor: string -> Option<seq<byte>>,        // face landmarks, descriptor and its bytes; None when a step yields None
    preprocessFingerprint: string -> Option<Skeleton>)  // None when the image cannot be loaded

  /** AES in CFB mode: (text, key, iv) to text. */
  datatype Aes = Aes(encrypt: (seq<byte>, seq<byte>, seq<byte>) -> seq<byte>,
                     decrypt: (seq<byte>, seq<byte>, seq<byte>) -> seq<byte>)

  /**
   * The descriptor bytes of an image for a mode. Only "face" and "fingerprint" produce
   * one; any other mode leaves the descriptor variable unbound.
   */
  function DescriptorBytes(fx: FeatureExtraction, mode: string, image: string): (r: Result<seq<byte>>)
    ensures r.Ok? ==> mode == "face" || mode == "fingerprint"
    ensures mode == "fingerprint" && r.Ok? ==> |r.value| == 2 * DescriptorLength
    ensures mode != "face" && mode != "fingerprint" ==> r == Err("UnboundLocalError")
  {
    if mode == "face" then
      match fx.faceDescriptor(image)
      case None => Err("ValueError")
      case Some(d) => Ok(d)
    else if mode == "fingerprint" then
      match fx.preprocessFingerprint(image)
      case None => Err("ValueError")
      case Some(skeleton) =>
        match GenerateBioDescriptor(Minutiae(skeleton, |skeleton|), DescriptorLength)
        case None => Err("ValueError")
        case Some(d) => Ok(ToBytes(d))
    else Err("UnboundLocalError")
  }

  /** A fingerprint with no minutiae has no descriptor, so nothing is encrypted for it. */
  lemma NoMinutiaeNoDescriptor(fx: FeatureExtraction, image: string)
    requires fx.preprocessFingerprint(image).Some?
    requires Minutiae(fx.preprocessFingerprint(image).value, |fx.preprocessFingerprint(image).value|) == []
    ensures DescriptorBytes(fx, "fingerprint", image).Err?
  {
  }

  datatype Enrolment = Enrolment(ciphertext: seq<byte>, iv: seq<byte>, helperData: seq<byte>, adjustedKey: seq<byte>)

  /**
   * `encryption_process` with the extractor BCH(255, 3); the key bits the extractor draws
   * and the initialisation vector are parameters.
   */
  function EncryptionProcess(fx: FeatureExtraction, code: BchCode, aes: Aes, mode: string, enrollImage: string,
                             fileBytes: seq<byte>, keyBits: seq<Bit>, iv: seq<byte>): (r: Result<Enrolment>)
    requires code.n == 255 && code.d == 3
    requires |keyBits| == code.k && |code.encode(keyBits)| == code.n
    ensures r.Ok? <==> DescriptorBytes(fx, mode, enrollImage).Ok?
    ensures r.Ok? ==> mode == "face" || mode == "fingerprint"
    ensures r.Ok? ==> |r.value.adjustedKey| == AesKeyLength && r.value.adjustedKey == AdjustKeyLength(Packed(keyBits), AesKeyLength)
    ensures r.Ok? ==> r.value.ciphertext == aes.encrypt(fileBytes, r.value.adjustedKey, iv)
    ensures r.Ok? ==> r.value.helperData == HelperData(code, DescriptorBytes(fx, mode, enrollImage).value, keyBits)
  {
    match DescriptorBytes(fx, mode, enrollImage)
    case Err(e) => Err(e)
    case Ok(descriptor) =>
      var key := Packed(keyBits);
      var helperData := HelperData(code, descriptor, keyBits);
      var adjustedKey := AdjustKeyLength(key, AesKeyLength);
      Ok(Enrolment(aes.encrypt(fileBytes, adjustedKey, iv), iv, helperData, adjustedKey))
  }

  /** Python `os.path.splitext`: the extension starts at the last dot of the last path component, unless only dots precede it there. */
  function SplitExt(p: string): (r: (string, string))
    ensures r.0 + r.1 == p
    ensures r.1 == "" || r.1[0] == '.'
  {
    var sep := LastIndexOf(p, '/');
    var dot := LastIndexOf(p, '.');
    if dot > sep && exists i | sep + 1 <= i < dot :: p[i] != '.' then (p[..dot], p[dot..]) else (p, "")
  }

  /** Where the decrypted file is written: named after the verification image's lower-cased extension. */
  function DecryptedFilePath(verifyImage: string): (r: string)
    ensures StartsWith(r, "./decrypted/decrypted_file")
  {
    "./decrypted/decrypted_file" + Lower(SplitExt(verifyImage).1)
  }

  /**
   * `decryption_process`: fails when no descriptor comes out, when the key cannot be
   * recovered, or when the recovered key fitted to 32 bytes differs from the stored
   * one; otherwise the decrypted bytes and the path they are saved to.
   */
  function DecryptionProcess(fx: FeatureExtraction, code: BchCode, aes: Aes, mode: string, verifyImage: string,
                             iv: seq<byte>, ciphertext: seq<byte>, helperData: seq<byte>, adjustedKey: seq<byte>)
    : (r: Result<(seq<byte>, string)>)
    requires code.n == 255 && code.d == 3
    ensures mode != "face" && mode != "fingerprint" ==> r.Err?
    ensures r.Ok? ==> DescriptorBytes(fx, mode, verifyImage).Ok?
    ensures r.Ok? ==>
      var recovered := Recovered(code, DescriptorBytes(fx, mode, verifyImage).value, helperData);
      recovered.Some? && AdjustKeyLength(recovered.value, AesKeyLength) == adjustedKey
    ensures r.Ok? ==> r.value == (aes.decrypt(ciphertext, adjustedKey, iv), DecryptedFilePath(verifyImage))
  {
    match DescriptorBytes(fx, mode, verifyImage)
    case Err(e) => Err(e)
    case Ok(descriptor) =>
      match Recovered(code, descriptor, helperData)
      case None => Err("ValueError")        // too much noise
      case Some(recoveredKey) =>
        var adjustedRecoveredKey := AdjustKeyLength(recoveredKey, AesKeyLength);
        if adjustedKey != adjustedRecoveredKey then Err("ValueError")   // keys do not match
        else Ok((aes.decrypt(ciphertext, adjustedRecoveredKey, iv), DecryptedFilePath(verifyImage)))
  }

  /**
   * Decrypting with the enrolment image itself gives back the encrypted file, given a
   * decoder that decodes the key's own codeword and AES decryption that inverts
   * encryption under the same key and iv.
   */
  lemma EncryptThenDecrypt(fx: FeatureExtraction, code: BchCode, aes: Aes, mode: string, image: string,
                           fileBytes: seq<byte>, keyBits: seq<Bit>, iv: seq<byte>)
    requires code.n == 255 && code.d == 3
    requires |keyBits| == code.k && |code.encode(keyBits)| == code.n
    requires code.decodeToMessage(code.encode(keyBits)) == Some(keyBits)
    requires var key := AdjustKeyLength(Packed(keyBits), AesKeyLength);
      aes.decrypt(aes.encrypt(fileBytes, key, iv), key, iv) == fileBytes
    requires EncryptionProcess(fx, code, aes, mode, image, fileBytes, keyBits, iv).Ok?
    ensures var e := EncryptionProcess(fx, code, aes, mode, image, fileBytes, keyBits, iv).value;
      DecryptionProcess(fx, code, aes, mode, image, e.iv, e.ciphertext, e.helperData, e.adjustedKey)
        == Ok((fileBytes, DecryptedFilePath(image)))
  {
    var descriptor := DescriptorBytes(fx, mode, image).value;
    ReproduceSameReading(code, descriptor, keyBits);
  }
}
