/** Extraction of a SIFT template from an image: the failure gates around
    the decoder and the detector, the order-preserving serialization of the
    detected keypoints, and the success or failure record. Decoding,
    preprocessing and detection are library calls, given here as opaque
    inputs. */
module SiftExtraction {

  datatype Option<+T> = None | Some(value: T)

  /** A keypoint as the detector reports it: its position, scale,
      orientation, strength, pyramid octave and class id. */
  datatype KeyPoint = KeyPoint(pt: (real, real), size: real, angle: real,
                               response: real, octave: int, classId: int)

  /** The plain record a keypoint is serialized to; the position becomes a
      two-element list. */
  datatype SerializedKeyPoint = SerializedKeyPoint(pt: seq<real>, size: real, angle: real,
                                                   response: real, octave: int, classId: int)

  /** A SIFT descriptor, a vector of 128 floats, passed through unchanged;
      the comparison consumes these lists. */
  type Descriptor = seq<real>

  /** What the image decoder produces: an image, nothing (the bytes are not
      an image it can read), or the message of an exception it raised. */
  datatype DecodeOutcome<Img> =
    | Decoded(image: Img)
    | NotDecoded
    | DecoderRaised(message: string)

  /** What preprocessing followed by keypoint detection and descriptor
      computation produces: the keypoints and the descriptor matrix (which the
      library may leave absent), or the message of an exception it raised. */
  datatype DetectOutcome =
    | Detected(keypoints: seq<KeyPoint>, descriptors: Option<seq<Descriptor>>)
    | DetectorRaised(message: string)

  /** Why an extraction failed. */
  datatype ExtractError =
    | ImageNotDecoded
    | NoFeaturesDetected
    | LibraryError(message: string)

  /** The record the extraction reports; `Extracted?` is its success flag. */
  datatype ExtractResult =
    | Extracted(keypoints: seq<SerializedKeyPoint>, descriptors: seq<Descriptor>, numFeatures: nat)
    | ExtractFailed(error: ExtractError)

  /** Reads a serialized keypoint back; the position must have two coordinates. */
  function DeserializeKeyPoint(s: SerializedKeyPoint): Option<KeyPoint>
  {
    if |s.pt| == 2
    then Some(KeyPoint((s.pt[0], s.pt[1]), s.size, s.angle, s.response, s.octave, s.classId))
    else None
  }

  /** The field-by-field copy of one keypoint into its serialized record; it
      loses nothing, so reading the record back gives the keypoint again. */
  function SerializeKeyPoint(kp: KeyPoint): (s: SerializedKeyPoint)
    ensures DeserializeKeyPoint(s) == Some(kp)
    ensures s.pt == [kp.pt.0, kp.pt.1]
  {
    SerializedKeyPoint([kp.pt.0, kp.pt.1], kp.size, kp.angle, kp.response, kp.octave, kp.classId)
  }

  /** Reading a record back succeeds exactly for the records some keypoint
      serializes to, and gives that keypoint. */
  lemma DeserializeInvertsSerialize(s: SerializedKeyPoint, kp: KeyPoint)
    ensures DeserializeKeyPoint(s) == Some(kp) <==> SerializeKeyPoint(kp) == s
  {
  }

  /** Reads a whole list of serialized keypoints back, failing if any entry fails. */
  function DeserializeKeyPoints(ss: seq<SerializedKeyPoint>): Option<seq<KeyPoint>>
  {
    if ss == [] then Some([])
    else
      match (DeserializeKeyPoint(ss[0]), DeserializeKeyPoints(ss[1..]))
      case (Some(kp), Some(rest)) => Some([kp] + rest)
      case _ => None
  }

  /** The serialization loop: one record per detected keypoint, in the
      detector's order. */
  method SerializeKeyPoints(keypoints: seq<KeyPoint>) returns (serialized: seq<SerializedKeyPoint>)
    ensures |serialized| == |keypoints|
    ensures forall i :: 0 <= i < |keypoints| ==> serialized[i] == SerializeKeyPoint(keypoints[i])
  {
    serialized := [];
    for i := 0 to |keypoints|
      invariant |serialized| == i
      invariant forall j :: 0 <= j < i ==> serialized[j] == SerializeKeyPoint(keypoints[j])
    {
      var kp := keypoints[i];
      serialized := serialized + [SerializedKeyPoint([kp.pt.0, kp.pt.1], kp.size, kp.angle,
                                                     kp.response, kp.octave, kp.classId)];
    }
  }

  /** A list that serializes `keypoints` entry by entry reads back as exactly
      `keypoints`: the serialized template keeps every keypoint and their order. */
  lemma {:induction false} SerializedKeyPointsRoundTrip(keypoints: seq<KeyPoint>, serialized: seq<SerializedKeyPoint>)
    requires |serialized| == |keypoints|
    requires forall i :: 0 <= i < |keypoints| ==> serialized[i] == SerializeKeyPoint(keypoints[i])
    ensures DeserializeKeyPoints(serialized) == Some(keypoints)
  {
    if keypoints != [] {
      SerializedKeyPointsRoundTrip(keypoints[1..], serialized[1..]);
      assert keypoints == [keypoints[0]] + keypoints[1..];
    }
  }

  /** The extraction of a template. `decoded` is what the decoder made of the
      image bytes; `detect` stands for preprocessing followed by detection,
      and is only consulted on a decoded image. */
  method ExtractSiftFeatures<Img>(decoded: DecodeOutcome<Img>, detect: Img -> DetectOutcome)
    returns (r: ExtractResult)
    ensures decoded.NotDecoded? ==> r == ExtractFailed(ImageNotDecoded)
    ensures decoded.DecoderRaised? ==> r == ExtractFailed(LibraryError(decoded.message))
    ensures decoded.Decoded? && detect(decoded.image).DetectorRaised? ==>
      r == ExtractFailed(LibraryError(detect(decoded.image).message))
    ensures decoded.Decoded? && detect(decoded.image).Detected? ==>
      var d := detect(decoded.image);
      (d.descriptors.None? || |d.keypoints| == 0) ==> r == ExtractFailed(NoFeaturesDetected)
    ensures r.Extracted? <==>
      decoded.Decoded? && detect(decoded.image).Detected?
      && detect(decoded.image).descriptors.Some? && |detect(decoded.image).keypoints| > 0
    ensures r.Extracted? ==>
      var d := detect(decoded.image);
      && r.numFeatures == |d.keypoints| == |r.keypoints|
      && r.numFeatures > 0
      && r.descriptors == d.descriptors.value
      && (forall i :: 0 <= i < |d.keypoints| ==> r.keypoints[i] == SerializeKeyPoint(d.keypoints[i]))
  {
    match decoded
    case NotDecoded =>
      r := ExtractFailed(ImageNotDecoded);
    case DecoderRaised(message) =>
      r := ExtractFailed(LibraryError(message));
    case Decoded(image) =>
      var detection := detect(image);
      match detection
      case DetectorRaised(message) =>
        r := ExtractFailed(LibraryError(message));
      case Detected(keypoints, descriptors) =>
        if descriptors.None? || |keypoints| == 0 {
          r := ExtractFailed(NoFeaturesDetected);
        } else {
          var serialized := SerializeKeyPoints(keypoints);
          r := Extracted(serialized, descriptors.value, |keypoints|);
        }
  }
}
