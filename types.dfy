/** Value types shared by the fusion pipeline, the keypoint formatter and the
    geometric helpers. Coordinates and scores are reals. */
module Types {

  datatype Option<+T> = None | Some(value: T)

  datatype Result<+T, +E> = Ok(value: T) | Err(error: E)

  /** A 2D position (x, y) in pixel coordinates, y growing downward. */
  datatype Point = Point(x: real, y: real)

  /** A detection box (x1, y1, x2, y2). */
  datatype Box = Box(x1: real, y1: real, x2: real, y2: real)

  /** One row of a formatter input instance: a keypoint with its score. */
  datatype Raw = Raw(x: real, y: real, score: real)

  /** A keypoint that passed the confidence gate; `id` is its position within
      its anatomical group. */
  datatype Keypoint = Keypoint(x: real, y: real, score: real, id: int)

  type Group = seq<Option<Keypoint>>

  datatype BodyResult = BodyResult(keypoints: Group, totalScore: real, totalParts: nat)

  datatype PoseResult = PoseResult(
    body: BodyResult,
    leftHand: Option<Group>,
    rightHand: Option<Group>,
    face: Option<Group>)
}
