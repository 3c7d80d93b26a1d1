/** The transform of one input record: the two detection results for its
    image are correlated face by face (first emotion at the face's origin),
    each face becomes one flat output record, and a failure while building or
    emitting one face's record is skipped or rethrown by `continueOnError`. */
module FaceMapper {
  import opened Wrappers
  import opened FaceData

  /** The exceptions a transform can end with. */
  datatype Error =
    | NullPointer                   // a null reference was dereferenced
    | ClassCast                     // the source field does not hold a byte array
    | UnknownField(name: string)    // the record builder was given a field the output schema lacks
    | ServiceFailure(cause: string) // a detection call failed

  /** What a detection call did: returned a list, possibly null, or threw. */
  datatype Call<T> = Returned(result: Option<T>) | Raised(cause: Error)

  /** The records one transform emitted, and the exception it ended with, if any. */
  datatype Run = Run(emitted: seq<Record>, error: Option<Error>)

  /** An input record: the values of its fields, by name; a missing name reads as null. */
  type InputRecord = map<string, Value>

  // ---------------------------------------------------------------------
  // Correlation

  /** The correlation key: an emotion belongs to a face whose rectangle has
      the same left and top; width and height take no part. */
  predicate Matches(e: Emotion, faceRectangle: Rectangle) {
    e.faceRectangle.Some?
    && e.faceRectangle.value.left == faceRectangle.left
    && e.faceRectangle.value.top == faceRectangle.top
  }

  /** The linear search for a face's emotion: the first one in list order
      whose rectangle matches; reading a null rectangle on the way fails. */
  function FirstMatch(emotions: seq<Emotion>, faceRectangle: Option<Rectangle>): (r: Result<Option<Emotion>, Error>)
    ensures r.Ok? && r.value.Some? ==>
      faceRectangle.Some? && r.value.value in emotions && Matches(r.value.value, faceRectangle.value)
    ensures r.Err? ==> r == Err(NullPointer) && emotions != []
  {
    if emotions == [] then Ok(None)
    else if emotions[0].faceRectangle.None? || faceRectangle.None? then Err(NullPointer)
    else if Matches(emotions[0], faceRectangle.value) then Ok(Some(emotions[0]))
    else FirstMatch(emotions[1..], faceRectangle)
  }

  /** The emotion found is the earliest one at the face's origin. */
  lemma {:induction false} FirstMatchIsEarliest(emotions: seq<Emotion>, rect: Rectangle, k: nat)
    requires k < |emotions| && Matches(emotions[k], rect)
    requires forall j :: 0 <= j < k ==> emotions[j].faceRectangle.Some? && !Matches(emotions[j], rect)
    ensures FirstMatch(emotions, Some(rect)) == Ok(Some(emotions[k]))
  {
    if k > 0 {
      FirstMatchIsEarliest(emotions[1..], rect, k - 1);
    }
  }

  /** With every rectangle present, a face gets no emotion exactly when none
      is at its origin. */
  lemma {:induction false} NoMatchMeansNoEmotion(emotions: seq<Emotion>, rect: Rectangle)
    requires forall e :: e in emotions ==> e.faceRectangle.Some?
    ensures FirstMatch(emotions, Some(rect)) == Ok(None) <==> forall e :: e in emotions ==> !Matches(e, rect)
  {
    if emotions != [] {
      NoMatchMeansNoEmotion(emotions[1..], rect);
      assert forall e :: e in emotions ==> e == emotions[0] || e in emotions[1..];
    }
  }

  /** The face's width and height do not affect which emotion it gets. */
  lemma {:induction false} MatchIgnoresSize(emotions: seq<Emotion>, rect: Rectangle, width: int, height: int)
    ensures FirstMatch(emotions, Some(rect)) == FirstMatch(emotions, Some(rect.(width := width, height := height)))
  {
    if emotions != [] {
      MatchIgnoresSize(emotions[1..], rect, width, height);
    }
  }

  /** The inner search loop: scan the emotions, stop at the first match. */
  method FindEmotion(emotions: seq<Emotion>, faceRectangle: Option<Rectangle>)
    returns (r: Result<Option<Emotion>, Error>)
    ensures r == FirstMatch(emotions, faceRectangle)
  {
    var theEmotion: Option<Emotion> := None;
    var i := 0;
    while i < |emotions|
      invariant 0 <= i <= |emotions|
      invariant FirstMatch(emotions, faceRectangle) == FirstMatch(emotions[i..], faceRectangle)
    {
      var e := emotions[i];
      if e.faceRectangle.None? || faceRectangle.None? {
        return Err(NullPointer);
      }
      if e.faceRectangle.value.left == faceRectangle.value.left && e.faceRectangle.value.top == faceRectangle.value.top {
        theEmotion := Some(e);
        break;
      }
      assert emotions[i..][1..] == emotions[i + 1..];
      i := i + 1;
    }
    return Ok(theEmotion);
  }

  // ---------------------------------------------------------------------
  // Record mapping

  /** Every part of the face the builder dereferences is there. */
  predicate Complete(face: Face) {
    face.faceRectangle.Some? && face.attributes.Some?
    && face.attributes.value.facialHair.Some? && face.attributes.value.gender.Some?
    && face.attributes.value.glasses.Some? && face.attributes.value.headPose.Some?
  }

  /** The value of a face column: the image bytes, a side of the rectangle,
      the face id, or an attribute (gender and glasses by name). */
  function FaceValue(raw: seq<bv8>, face: Face, c: Column): Value
    requires Complete(face) && c in FaceColumns
  {
    var rect, a := face.faceRectangle.value, face.attributes.value;
    var hair, pose := a.facialHair.value, a.headPose.value;
    match c
    case RawImageData => Bytes(raw)
    case RectangleLeft => Int(rect.left)
    case RectangleTop => Int(rect.top)
    case RectangleHeight => Int(rect.height)
    case RectangleWidth => Int(rect.width)
    case FaceId => if face.faceId.Some? then Str(face.faceId.value) else Null
    case Age => Dbl(a.age)
    case Mustache => Dbl(hair.mustache)
    case Beard => Dbl(hair.beard)
    case Sideburns => Dbl(hair.sideburns)
    case Gender => Str(a.gender.value)
    case Glasses => Str(a.glasses.value)
    case HeadPoseRoll => Dbl(pose.roll)
    case HeadPoseYaw => Dbl(pose.yaw)
    case HeadPosePitch => Dbl(pose.pitch)
    case Smile => Dbl(a.smile)
    case _ => assert false; Null
  }

  /** The face part of a record, the sixteen face columns; `None` when the
      builder would dereference a null rectangle or attribute. */
  function FaceRecord(raw: seq<bv8>, face: Face): Option<Record> {
    if Complete(face) then Some(map c | c in FaceColumns :: FaceValue(raw, face, c)) else None
  }

  /** The face part exists exactly for a complete face, and then sets every
      face column and nothing else. */
  lemma FaceRecordShape(raw: seq<bv8>, face: Face)
    ensures FaceRecord(raw, face).Some? <==> Complete(face)
    ensures FaceRecord(raw, face).Some? ==> FaceRecord(raw, face).value.Keys == FaceColumns
  {
  }

  /** The column a score is written to, when the schema has one. */
  predicate Known(score: (string, Float64)) {
    ScoreColumn(score.0).Some?
  }

  /** The columns a score list writes to. */
  function ScoreColumns(scores: seq<(string, Float64)>): set<Column> {
    set i | 0 <= i < |scores| && Known(scores[i]) :: ScoreColumn(scores[i].0).value
  }

  /** No later score is written to the same field as score `i`. */
  predicate LastForItsField(scores: seq<(string, Float64)>, i: nat)
    requires i < |scores|
  {
    forall j :: i < j < |scores| ==> ScoreField(scores[j].0) != ScoreField(scores[i].0)
  }

  /** An emotion whose score keys all land on emotion columns, as the
      detection client's score constants do. */
  predicate WellKeyed(e: Emotion) {
    e.scores.Some? ==>
      forall i :: 0 <= i < |e.scores.value| ==>
        Known(e.scores.value[i]) && ScoreColumn(e.scores.value[i].0).value.IsEmotion()
  }

  lemma ScoreColumnsCons(scores: seq<(string, Float64)>)
    requires scores != []
    ensures ScoreColumns(scores) ==
      (if Known(scores[0]) then {ScoreColumn(scores[0].0).value} else {}) + ScoreColumns(scores[1..])
  {
    var rest := scores[1..];
    forall c | c in ScoreColumns(rest)
      ensures c in ScoreColumns(scores)
    {
      var i :| 0 <= i < |rest| && Known(rest[i]) && ScoreColumn(rest[i].0).value == c;
      assert scores[i + 1] == rest[i];
    }
    forall c | c in ScoreColumns(scores)
      ensures c in ScoreColumns(rest) || (Known(scores[0]) && c == ScoreColumn(scores[0].0).value)
    {
      var i :| 0 <= i < |scores| && Known(scores[i]) && ScoreColumn(scores[i].0).value == c;
      if i > 0 {
        assert rest[i - 1] == scores[i];
      }
    }
  }

  /** Writes the scores in order, each under its normalised field name; the
      builder rejects a name the output schema lacks. */
  function ApplyScores(rec: Record, scores: seq<(string, Float64)>): Result<Record, Error>
    decreases |scores|
  {
    if scores == [] then Ok(rec)
    else
      var field := ScoreField(scores[0].0);
      match ColumnNamed(field)
      case None => Err(UnknownField(field))
      case Some(c) => ApplyScores(rec[c := Dbl(scores[0].1)], scores[1..])
  }

  /** Writing the scores succeeds exactly when every score's field is in the
      output schema. */
  lemma {:induction false} ApplyScoresSucceeds(rec: Record, scores: seq<(string, Float64)>)
    ensures ApplyScores(rec, scores).Ok? <==> forall i :: 0 <= i < |scores| ==> Known(scores[i])
    decreases |scores|
  {
    if scores != [] && Known(scores[0]) {
      var c := ScoreColumn(scores[0].0).value;
      var rest := scores[1..];
      ApplyScoresSucceeds(rec[c := Dbl(scores[0].1)], rest);
      assert forall i :: 1 <= i < |scores| ==> rest[i - 1] == scores[i];
    }
  }

  /** When writing fails, it names the field of one of the scores, and the
      output schema has no field of that name. */
  lemma {:induction false} ApplyScoresFailure(rec: Record, scores: seq<(string, Float64)>)
    ensures var r := ApplyScores(rec, scores);
      r.Err? ==> r.error.UnknownField? && ColumnNamed(r.error.name).None?
                 && exists i :: 0 <= i < |scores| && ScoreField(scores[i].0) == r.error.name
    decreases |scores|
  {
    if scores != [] && Known(scores[0]) {
      var c := ScoreColumn(scores[0].0).value;
      var rest := scores[1..];
      ApplyScoresFailure(rec[c := Dbl(scores[0].1)], rest);
      var r := ApplyScores(rec[c := Dbl(scores[0].1)], rest);
      if r.Err? {
        var i :| 0 <= i < |rest| && ScoreField(rest[i].0) == r.error.name;
        assert scores[i + 1] == rest[i];
      }
    }
  }

  /** A successful write sets exactly the score columns on top of the record's
      own, and leaves every column no score names as it was. */
  lemma {:induction false} ApplyScoresFrame(rec: Record, scores: seq<(string, Float64)>)
    ensures var r := ApplyScores(rec, scores);
      r.Ok? ==> r.value.Keys == rec.Keys + ScoreColumns(scores)
                && forall c :: c in rec && c !in ScoreColumns(scores) ==> r.value[c] == rec[c]
    decreases |scores|
  {
    if scores != [] && Known(scores[0]) {
      ScoreColumnsCons(scores);
      var c := ScoreColumn(scores[0].0).value;
      ApplyScoresFrame(rec[c := Dbl(scores[0].1)], scores[1..]);
    }
  }

  /** After a successful write, a column holds the last score written to it. */
  lemma {:induction false} ApplyScoresLastWins(rec: Record, scores: seq<(string, Float64)>)
    ensures var r := ApplyScores(rec, scores);
      r.Ok? ==> forall i :: 0 <= i < |scores| && LastForItsField(scores, i) ==>
                  ScoreColumn(scores[i].0).Some? && ScoreColumn(scores[i].0).value in r.value
                  && r.value[ScoreColumn(scores[i].0).value] == Dbl(scores[i].1)
    decreases |scores|
  {
    if scores != [] && Known(scores[0]) {
      var c := ScoreColumn(scores[0].0).value;
      var rest := scores[1..];
      ApplyScoresLastWins(rec[c := Dbl(scores[0].1)], rest);
      ApplyScoresFrame(rec[c := Dbl(scores[0].1)], rest);
      ApplyScoresSucceeds(rec, scores);
      var r := ApplyScores(rec[c := Dbl(scores[0].1)], rest);
      if r.Ok? {
        forall i | 0 <= i < |scores| && LastForItsField(scores, i)
          ensures ScoreColumn(scores[i].0).Some? && ScoreColumn(scores[i].0).value in r.value
          ensures r.value[ScoreColumn(scores[i].0).value] == Dbl(scores[i].1)
        {
          if i == 0 {
            assert c !in ScoreColumns(rest);
          } else {
            assert rest[i - 1] == scores[i];
            assert LastForItsField(rest, i - 1);
          }
        }
      }
    }
  }

  /** The record built for a face and the emotion found for it: the face part,
      then, only when an emotion was found, its scores. */
  function MapFace(raw: seq<bv8>, face: Face, emotion: Option<Emotion>): Result<Record, Error> {
    match FaceRecord(raw, face)
    case None => Err(NullPointer)
    case Some(rec) =>
      match emotion
      case None => Ok(rec)
      case Some(e) => if e.scores.None? then Err(NullPointer) else ApplyScores(rec, e.scores.value)
  }

  /** A record is built only for a complete face; without an emotion it holds
      exactly the face columns, with one exactly the face columns and the score
      columns, and every face column no score overwrites holds the face's value. */
  lemma MapFaceSpec(raw: seq<bv8>, face: Face, emotion: Option<Emotion>)
    ensures var r := MapFace(raw, face, emotion);
      && (r.Ok? ==> Complete(face))
      && (r.Ok? && emotion.None? ==> r.value.Keys == FaceColumns)
      && (r.Ok? && emotion.Some? ==>
            emotion.value.scores.Some? && r.value.Keys == FaceColumns + ScoreColumns(emotion.value.scores.value))
      && (r.Ok? ==> forall c ::
            (c in FaceColumns && (emotion.Some? ==> c !in ScoreColumns(emotion.value.scores.value))) ==>
            r.value[c] == FaceRecord(raw, face).value[c])
  {
    FaceRecordShape(raw, face);
    if FaceRecord(raw, face).Some? && emotion.Some? && emotion.value.scores.Some? {
      ApplyScoresFrame(FaceRecord(raw, face).value, emotion.value.scores.value);
    }
  }

  /** What the per-face block computes: find the face's emotion, then build its record. */
  function ProcessFace(raw: seq<bv8>, face: Face, emotions: Option<seq<Emotion>>): (r: Result<Record, Error>)
  {
    if emotions.None? then Err(NullPointer)
    else
      match FirstMatch(emotions.value, face.faceRectangle)
      case Err(e) => Err(e)
      case Ok(m) => MapFace(raw, face, m)
  }

  /** A record built from a well-keyed emotion carries the image bytes, the
      face's rectangle, id and attributes (gender and glasses by name). */
  lemma RecordContents(raw: seq<bv8>, face: Face, emotions: seq<Emotion>)
    requires forall e :: e in emotions ==> WellKeyed(e)
    requires ProcessFace(raw, face, Some(emotions)).Ok?
    ensures var r := ProcessFace(raw, face, Some(emotions)).value;
      var rect, a := face.faceRectangle.value, face.attributes.value;
      && FaceColumns <= r.Keys
      && r[RawImageData] == Bytes(raw)
      && r[RectangleLeft] == Int(rect.left) && r[RectangleTop] == Int(rect.top)
      && r[RectangleHeight] == Int(rect.height) && r[RectangleWidth] == Int(rect.width)
      && r[FaceId] == (if face.faceId.Some? then Str(face.faceId.value) else Null)
      && r[Age] == Dbl(a.age) && r[Smile] == Dbl(a.smile)
      && r[Mustache] == Dbl(a.facialHair.value.mustache) && r[Beard] == Dbl(a.facialHair.value.beard)
      && r[Sideburns] == Dbl(a.facialHair.value.sideburns)
      && r[Gender] == Str(a.gender.value) && r[Glasses] == Str(a.glasses.value)
      && r[HeadPoseRoll] == Dbl(a.headPose.value.roll) && r[HeadPoseYaw] == Dbl(a.headPose.value.yaw)
      && r[HeadPosePitch] == Dbl(a.headPose.value.pitch)
  {
    FaceColumnsIntact(raw, face, emotions);
    MapFaceSpec(raw, face, FirstMatch(emotions, face.faceRectangle).value);
    FaceRecordValues(raw, face);
  }

  /** The face part holds the image and each attribute of the face under its own column. */
  lemma FaceRecordValues(raw: seq<bv8>, face: Face)
    requires Complete(face)
    ensures var f, rect, a := FaceRecord(raw, face).value, face.faceRectangle.value, face.attributes.value;
      && f[RawImageData] == Bytes(raw)
      && f[RectangleLeft] == Int(rect.left) && f[RectangleTop] == Int(rect.top)
      && f[RectangleHeight] == Int(rect.height) && f[RectangleWidth] == Int(rect.width)
      && f[FaceId] == (if face.faceId.Some? then Str(face.faceId.value) else Null)
      && f[Age] == Dbl(a.age) && f[Smile] == Dbl(a.smile)
      && f[Mustache] == Dbl(a.facialHair.value.mustache) && f[Beard] == Dbl(a.facialHair.value.beard)
      && f[Sideburns] == Dbl(a.facialHair.value.sideburns)
      && f[Gender] == Str(a.gender.value) && f[Glasses] == Str(a.glasses.value)
      && f[HeadPoseRoll] == Dbl(a.headPose.value.roll) && f[HeadPoseYaw] == Dbl(a.headPose.value.yaw)
      && f[HeadPosePitch] == Dbl(a.headPose.value.pitch)
  {
  }

  /** Well-keyed scores never overwrite a face column. */
  lemma FaceColumnsIntact(raw: seq<bv8>, face: Face, emotions: seq<Emotion>)
    requires forall e :: e in emotions ==> WellKeyed(e)
    requires ProcessFace(raw, face, Some(emotions)).Ok?
    ensures var r := ProcessFace(raw, face, Some(emotions)).value;
      forall c :: c in FaceColumns ==> c in r && r[c] == FaceRecord(raw, face).value[c]
  {
    var m := FirstMatch(emotions, face.faceRectangle).value;
    MapFaceSpec(raw, face, m);
    if m.Some? {
      assert WellKeyed(m.value);
      var scores := m.value.scores.value;
      forall c | c in ScoreColumns(scores)
        ensures c !in FaceColumns
      {
        var i :| 0 <= i < |scores| && Known(scores[i]) && ScoreColumn(scores[i].0).value == c;
        EmotionIsNotFace(c);
      }
    }
  }

  /** A face with no emotion at its origin gets a record with every face
      column and no emotion column. */
  lemma UnmatchedFaceHasNoScores(raw: seq<bv8>, face: Face, emotions: seq<Emotion>)
    requires face.faceRectangle.Some? && forall e :: e in emotions ==> e.faceRectangle.Some?
    requires forall e :: e in emotions ==> !Matches(e, face.faceRectangle.value)
    requires Complete(face)
    ensures ProcessFace(raw, face, Some(emotions)) == Ok(FaceRecord(raw, face).value)
    ensures forall c :: c in ProcessFace(raw, face, Some(emotions)).value ==> !c.IsEmotion()
  {
    NoMatchMeansNoEmotion(emotions, face.faceRectangle.value);
    FaceRecordShape(raw, face);
  }

  /** The body of the per-face `try` block of `transform`: the search loop, then the
      builder's steps and the loop over the matched emotion's scores. */
  method BuildFaceRecord(raw: seq<bv8>, face: Face, emotions: Option<seq<Emotion>>)
    returns (r: Result<Record, Error>)
    ensures r == ProcessFace(raw, face, emotions)
  {
    if emotions.None? {
      return Err(NullPointer);
    }
    var theEmotion := FindEmotion(emotions.value, face.faceRectangle);
    if theEmotion.Err? {
      return Err(theEmotion.error);
    }
    r := BuildRecord(raw, face, theEmotion.value);
  }

  /** The record builder: the face's fields, then the matched emotion's scores. */
  method BuildRecord(raw: seq<bv8>, face: Face, emotion: Option<Emotion>) returns (r: Result<Record, Error>)
    ensures r == MapFace(raw, face, emotion)
  {
    var builder := SetFaceFields(raw, face);
    if builder.None? {
      return Err(NullPointer);
    }
    if emotion.None? {
      return Ok(builder.value);
    }
    if emotion.value.scores.None? {
      return Err(NullPointer);
    }
    r := SetScores(builder.value, emotion.value.scores.value);
  }

  /** The builder's chain of `set` calls for the image and the face, each
      dereferencing the part of the face it reads. */
  method SetFaceFields(raw: seq<bv8>, face: Face) returns (r: Option<Record>)
    ensures r == FaceRecord(raw, face)
  {
    var builder: Record := map[RawImageData := Bytes(raw)];
    if face.faceRectangle.None? {
      return None;
    }
    var rect := face.faceRectangle.value;
    builder := builder[RectangleLeft := Int(rect.left)][RectangleTop := Int(rect.top)];
    builder := builder[RectangleHeight := Int(rect.height)][RectangleWidth := Int(rect.width)];
    builder := builder[FaceId := if face.faceId.Some? then Str(face.faceId.value) else Null];
    if face.attributes.None? {
      return None;
    }
    var a := face.attributes.value;
    builder := builder[Age := Dbl(a.age)];
    if a.facialHair.None? {
      return None;
    }
    var hair := a.facialHair.value;
    builder := builder[Mustache := Dbl(hair.mustache)][Beard := Dbl(hair.beard)][Sideburns := Dbl(hair.sideburns)];
    if a.gender.None? {
      return None;
    }
    builder := builder[Gender := Str(a.gender.value)];
    if a.glasses.None? {
      return None;
    }
    builder := builder[Glasses := Str(a.glasses.value)];
    if a.headPose.None? {
      return None;
    }
    var pose := a.headPose.value;
    builder := builder[HeadPoseRoll := Dbl(pose.roll)][HeadPoseYaw := Dbl(pose.yaw)];
    builder := builder[HeadPosePitch := Dbl(pose.pitch)][Smile := Dbl(a.smile)];
    assert builder == FaceRecord(raw, face).value;
    return Some(builder);
  }

  /** The loop over the scores: lower-case the key, correct the misspelling,
      and set the field of that name. */
  method SetScores(builder: Record, scores: seq<(string, Float64)>) returns (r: Result<Record, Error>)
    ensures r == ApplyScores(builder, scores)
  {
    var record := builder;
    var i := 0;
    while i < |scores|
      invariant 0 <= i <= |scores|
      invariant ApplyScores(record, scores[i..]) == ApplyScores(builder, scores)
    {
      var lower := LowerCase(scores[i].0);
      var field := if lower == "suprise" then "surprise" else lower;
      var column := ColumnNamed(field);
      if column.None? {
        return Err(UnknownField(field));
      }
      record := record[column.value := Dbl(scores[i].1)];
      assert scores[i..][1..] == scores[i + 1..];
      i := i + 1;
    }
    assert scores[i..] == [];
    return Ok(record);
  }

  // ---------------------------------------------------------------------
  // The face loop

  /** The loop over the faces: a face's record is emitted when it builds; when
      it fails, `continueOnError` true skips the face, false rethrows, and a
      null flag fails to unbox in the handler, throwing a null-pointer error. */
  function RunFaces(raw: seq<bv8>, faces: seq<Face>, emotions: Option<seq<Emotion>>,
                    continueOnError: Option<bool>): (run: Run)
    ensures |run.emitted| <= |faces|
    decreases |faces|
  {
    if faces == [] then Run([], None)
    else
      match ProcessFace(raw, faces[0], emotions)
      case Ok(r) =>
        var rest := RunFaces(raw, faces[1..], emotions, continueOnError);
        Run([r] + rest.emitted, rest.error)
      case Err(e) =>
        if continueOnError == Some(true) then RunFaces(raw, faces[1..], emotions, continueOnError)
        else Run([], Some(if continueOnError.None? then NullPointer else e))
  }

  /** The records of the faces that build, in face order: one for each. */
  function Successes(raw: seq<bv8>, faces: seq<Face>, emotions: Option<seq<Emotion>>): seq<Record>
    decreases |faces|
  {
    if faces == [] then []
    else
      (match ProcessFace(raw, faces[0], emotions)
       case Ok(r) => [r]
       case Err(_) => [])
      + Successes(raw, faces[1..], emotions)
  }

  /** The index of the first face whose record fails to build, or the number of faces. */
  function FirstFailure(raw: seq<bv8>, faces: seq<Face>, emotions: Option<seq<Emotion>>): (k: nat)
    ensures k <= |faces|
    ensures forall j :: 0 <= j < k ==> ProcessFace(raw, faces[j], emotions).Ok?
    ensures k < |faces| ==> ProcessFace(raw, faces[k], emotions).Err?
    decreases |faces|
  {
    if faces == [] then 0
    else if ProcessFace(raw, faces[0], emotions).Err? then 0
    else 1 + FirstFailure(raw, faces[1..], emotions)
  }

  /** With `continueOnError` true, every face that fails is skipped and every
      other one is emitted, in order, and the loop never throws. */
  lemma {:induction false} ContinueSkipsOnlyFailingFaces(
    raw: seq<bv8>, faces: seq<Face>, emotions: Option<seq<Emotion>>)
    ensures RunFaces(raw, faces, emotions, Some(true)) == Run(Successes(raw, faces, emotions), None)
    decreases |faces|
  {
    if faces != [] {
      ContinueSkipsOnlyFailingFaces(raw, faces[1..], emotions);
    }
  }

  /** Otherwise the loop stops at the first failing face: the records of the
      faces before it stay emitted, one per face and in order, later faces are
      not processed, and its exception (or, for a null flag, a null-pointer
      exception) propagates. */
  lemma {:induction false} StopAtFirstFailure(
    raw: seq<bv8>, faces: seq<Face>, emotions: Option<seq<Emotion>>, continueOnError: Option<bool>)
    requires continueOnError != Some(true)
    ensures var k, run := FirstFailure(raw, faces, emotions), RunFaces(raw, faces, emotions, continueOnError);
      && |run.emitted| == k
      && (forall j :: 0 <= j < k ==> run.emitted[j] == ProcessFace(raw, faces[j], emotions).value)
      && run.error == if k == |faces| then None
                      else Some(if continueOnError.None? then NullPointer else ProcessFace(raw, faces[k], emotions).error)
    decreases |faces|
  {
    if faces != [] && ProcessFace(raw, faces[0], emotions).Ok? {
      StopAtFirstFailure(raw, faces[1..], emotions, continueOnError);
      var k := FirstFailure(raw, faces[1..], emotions);
      var run := RunFaces(raw, faces, emotions, continueOnError);
      assert FirstFailure(raw, faces, emotions) == k + 1;
      forall j | 1 <= j < k + 1
        ensures run.emitted[j] == ProcessFace(raw, faces[j], emotions).value
      {
        assert faces[1..][j - 1] == faces[j];
      }
      if k + 1 < |faces| {
        assert faces[1..][k] == faces[k + 1];
      }
    }
  }

  /** When every face builds, each emits exactly one record, in face order,
      whatever the flag says. */
  lemma {:induction false} OneRecordPerFace(
    raw: seq<bv8>, faces: seq<Face>, emotions: Option<seq<Emotion>>, continueOnError: Option<bool>)
    requires forall j :: 0 <= j < |faces| ==> ProcessFace(raw, faces[j], emotions).Ok?
    ensures var run := RunFaces(raw, faces, emotions, continueOnError);
      && run.error == None && |run.emitted| == |faces|
      && forall j :: 0 <= j < |faces| ==> run.emitted[j] == ProcessFace(raw, faces[j], emotions).value
    decreases |faces|
  {
    if faces != [] {
      OneRecordPerFace(raw, faces[1..], emotions, continueOnError);
      var run := RunFaces(raw, faces, emotions, continueOnError);
      forall j | 1 <= j < |faces|
        ensures run.emitted[j] == ProcessFace(raw, faces[j], emotions).value
      {
        assert faces[1..][j - 1] == faces[j];
      }
    }
  }

  /** A null emotion list makes every face fail: nothing is emitted, and the
      first face's failure propagates unless the flag is true. */
  lemma {:induction false} NullEmotionListFailsEveryFace(
    raw: seq<bv8>, faces: seq<Face>, continueOnError: Option<bool>)
    requires faces != []
    ensures RunFaces(raw, faces, None, continueOnError) ==
      if continueOnError == Some(true) then Run([], None) else Run([], Some(NullPointer))
    decreases |faces|
  {
    if continueOnError == Some(true) && |faces| > 1 {
      NullEmotionListFailsEveryFace(raw, faces[1..], continueOnError);
    }
  }

  // ---------------------------------------------------------------------
  // The transform of one input record

  /** `in.get(name)`: null for a null name, an absent field or a null value. */
  function SourceValue(input: InputRecord, sourceFieldName: Option<string>): Option<Value> {
    if sourceFieldName.Some? && sourceFieldName.value in input && input[sourceFieldName.value] != Null
    then Some(input[sourceFieldName.value])
    else None
  }

  /** The transform of one input record. A null source field emits nothing
      and calls no detector; a non-bytes value fails the cast; the faces call
      runs first and the emotions call second, and an exception from either
      propagates; a null face list emits nothing; otherwise the face loop runs. */
  function Transform(input: InputRecord, sourceFieldName: Option<string>, continueOnError: Option<bool>,
                     faces: Call<seq<Face>>, emotions: Call<seq<Emotion>>): (run: Run)
  {
    match SourceValue(input, sourceFieldName)
    case None => Run([], None)
    case Some(v) =>
      if !v.Bytes? then Run([], Some(ClassCast))
      else if faces.Raised? then Run([], Some(faces.cause))
      else if emotions.Raised? then Run([], Some(emotions.cause))
      else if faces.result.None? then Run([], None)
      else RunFaces(v.bytes, faces.result.value, emotions.result, continueOnError)
  }

  /** No record is emitted when the source field is null or the detector returns no face list. */
  lemma NothingWithoutImageOrFaces(input: InputRecord, sourceFieldName: Option<string>,
                                   continueOnError: Option<bool>, faces: Call<seq<Face>>,
                                   emotions: Call<seq<Emotion>>)
    requires SourceValue(input, sourceFieldName).None?
      || (SourceValue(input, sourceFieldName).value.Bytes? && faces == Returned(None) && emotions.Returned?)
    ensures Transform(input, sourceFieldName, continueOnError, faces, emotions) == Run([], None)
  {
  }

  /** An exception from either detection call propagates and nothing is
      emitted, whatever `continueOnError` says; when the faces call throws,
      the emotions call does not matter. */
  lemma DetectionFailuresPropagate(input: InputRecord, sourceFieldName: Option<string>,
                                   continueOnError: Option<bool>, faces: Call<seq<Face>>,
                                   emotions: Call<seq<Emotion>>,
                                   otherFlag: Option<bool>, otherEmotions: Call<seq<Emotion>>)
    requires SourceValue(input, sourceFieldName).Some? && SourceValue(input, sourceFieldName).value.Bytes?
    requires faces.Raised? || emotions.Raised?
    ensures Transform(input, sourceFieldName, continueOnError, faces, emotions) ==
      Run([], Some(if faces.Raised? then faces.cause else emotions.cause))
    ensures faces.Raised? ==>
      Transform(input, sourceFieldName, continueOnError, faces, emotions) ==
      Transform(input, sourceFieldName, otherFlag, faces, otherEmotions)
  {
  }

  /** Every record emitted carries, as `raw_image_data`, exactly the bytes of
      the input's source field, when the emotion scores are well keyed. */
  lemma {:induction false} RawImageRoundTrip(input: InputRecord, sourceFieldName: Option<string>,
                                             continueOnError: Option<bool>, faces: Call<seq<Face>>,
                                             emotions: Call<seq<Emotion>>)
    requires emotions.Returned? && emotions.result.Some? ==> forall e :: e in emotions.result.value ==> WellKeyed(e)
    ensures forall r :: r in Transform(input, sourceFieldName, continueOnError, faces, emotions).emitted ==>
      RawImageData in r && Some(r[RawImageData]) == SourceValue(input, sourceFieldName)
  {
    var v := SourceValue(input, sourceFieldName);
    if v.Some? && v.value.Bytes? && faces.Returned? && faces.result.Some? && emotions.Returned? {
      RunFacesCarryImage(v.value.bytes, faces.result.value, emotions.result, continueOnError);
    }
  }

  lemma {:induction false} RunFacesCarryImage(raw: seq<bv8>, faces: seq<Face>, emotions: Option<seq<Emotion>>,
                                              continueOnError: Option<bool>)
    requires emotions.Some? ==> forall e :: e in emotions.value ==> WellKeyed(e)
    ensures forall r :: r in RunFaces(raw, faces, emotions, continueOnError).emitted ==>
      RawImageData in r && r[RawImageData] == Bytes(raw)
    decreases |faces|
  {
    if faces != [] {
      RunFacesCarryImage(raw, faces[1..], emotions, continueOnError);
      var p := ProcessFace(raw, faces[0], emotions);
      if p.Ok? {
        RecordContents(raw, faces[0], emotions.value);
      }
    }
  }

  /** One turn of the face loop, at face `i`. */
  lemma RunFacesStep(raw: seq<bv8>, faces: seq<Face>, i: nat, emotions: Option<seq<Emotion>>,
                     continueOnError: Option<bool>, built: Result<Record, Error>)
    requires i < |faces| && built == ProcessFace(raw, faces[i], emotions)
    ensures var here, next := RunFaces(raw, faces[i..], emotions, continueOnError),
                              RunFaces(raw, faces[i + 1..], emotions, continueOnError);
      && (built.Ok? ==> here == Run([built.value] + next.emitted, next.error))
      && (built.Err? && continueOnError == Some(true) ==> here == next)
      && (built.Err? && continueOnError != Some(true) ==>
            here == Run([], Some(if continueOnError.None? then NullPointer else built.error)))
  {
    assert faces[i..][0] == faces[i];
    assert faces[i..][1..] == faces[i + 1..];
  }

  /** How the transform completed. */
  function Completion(run: Run): Outcome<Error> {
    if run.error.None? then Pass else Fail(run.error.value)
  }

  /** The host's emitter: the records emitted so far. */
  class Emitter {
    var emitted: seq<Record>

    constructor ()
      ensures emitted == []
    {
      emitted := [];
    }

    method Emit(r: Record)
      modifies this
      ensures emitted == old(emitted) + [r]
    {
      emitted := emitted + [r];
    }
  }

  /** `transform(in, emitter)`, shared by both plugins: emits what `Transform`
      says, in order, and completes as it says. */
  method TransformRecord(input: InputRecord, sourceFieldName: Option<string>, continueOnError: Option<bool>,
                         faces: Call<seq<Face>>, emotions: Call<seq<Emotion>>, emitter: Emitter)
    returns (outcome: Outcome<Error>)
    modifies emitter
    ensures emitter.emitted == old(emitter.emitted) + Transform(input, sourceFieldName, continueOnError, faces, emotions).emitted
    ensures outcome == Completion(Transform(input, sourceFieldName, continueOnError, faces, emotions))
  {
    var value := SourceValue(input, sourceFieldName);
    if value.None? {
      return Pass;
    }
    if !value.value.Bytes? {
      return Fail(ClassCast);
    }
    var raw := value.value.bytes;
    if faces.Raised? {
      return Fail(faces.cause);
    }
    if emotions.Raised? {
      return Fail(emotions.cause);
    }
    if faces.result.None? {
      return Pass;
    }
    outcome := EmitFaces(raw, faces.result.value, emotions.result, continueOnError, emitter);
  }

  /** The loop over the faces of one image, with its handler. */
  method EmitFaces(raw: seq<bv8>, faces: seq<Face>, emotions: Option<seq<Emotion>>,
                   continueOnError: Option<bool>, emitter: Emitter)
    returns (outcome: Outcome<Error>)
    modifies emitter
    ensures emitter.emitted == old(emitter.emitted) + RunFaces(raw, faces, emotions, continueOnError).emitted
    ensures outcome == Completion(RunFaces(raw, faces, emotions, continueOnError))
  {
    ghost var run := RunFaces(raw, faces, emotions, continueOnError);
    assert faces[0..] == faces;
    ghost var done: seq<Record> := [];
    ghost var rest := run;
    var i := 0;
    while i < |faces|
      invariant 0 <= i <= |faces|
      invariant rest == RunFaces(raw, faces[i..], emotions, continueOnError)
      invariant emitter.emitted == old(emitter.emitted) + done
      invariant run == Run(done + rest.emitted, rest.error)
    {
      ghost var before := emitter.emitted;
      var thrown := EmitFace(raw, faces[i], emotions, continueOnError, emitter);
      ghost var added := emitter.emitted[|before|..];
      EmitStep(raw, faces, i, emotions, continueOnError, done, thrown, added);
      if thrown.Some? {
        return Fail(thrown.value);
      }
      done := done + added;
      rest := RunFaces(raw, faces[i + 1..], emotions, continueOnError);
      i := i + 1;
    }
    return Pass;
  }

  /** What one pass of the face loop does to the run still ahead: if it threw,
      the run ends there with that exception; otherwise the records it emitted
      begin the rest of the run. */
  lemma EmitStep(raw: seq<bv8>, faces: seq<Face>, i: nat, emotions: Option<seq<Emotion>>,
                 continueOnError: Option<bool>, done: seq<Record>, thrown: Option<Error>, added: seq<Record>)
    requires i < |faces|
    requires var built := ProcessFace(raw, faces[i], emotions);
      && added == (if built.Ok? then [built.value] else [])
      && thrown == if built.Ok? || continueOnError == Some(true) then None
                   else Some(if continueOnError.None? then NullPointer else built.error)
    ensures var rest, next := RunFaces(raw, faces[i..], emotions, continueOnError),
                              RunFaces(raw, faces[i + 1..], emotions, continueOnError);
      && (thrown.Some? ==> rest == Run([], thrown))
      && (thrown.None? ==> done + rest.emitted == (done + added) + next.emitted && rest.error == next.error)
  {
    RunFacesStep(raw, faces, i, emotions, continueOnError, ProcessFace(raw, faces[i], emotions));
  }

  /** The body of the face loop, the `try` block and its handler: build and
      emit the face's record; on an exception, carry on when the flag is true
      and otherwise rethrow it (unboxing a null flag throws a null dereference). */
  method EmitFace(raw: seq<bv8>, face: Face, emotions: Option<seq<Emotion>>,
                  continueOnError: Option<bool>, emitter: Emitter)
    returns (thrown: Option<Error>)
    modifies emitter
    ensures var built := ProcessFace(raw, face, emotions);
      && emitter.emitted == old(emitter.emitted) + (if built.Ok? then [built.value] else [])
      && thrown == if built.Ok? || continueOnError == Some(true) then None
                   else Some(if continueOnError.None? then NullPointer else built.error)
  {
    var built := BuildFaceRecord(raw, face, emotions);
    if built.Ok? {
      emitter.Emit(built.value);
      return None;
    }
    if continueOnError.None? {
      return Some(NullPointer);
    }
    if !continueOnError.value {
      return Some(built.error);
    }
    return None;
  }
}
