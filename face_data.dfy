/** What the detector returns for one image, the columns of the output
    schema and the values an output record holds, and the normalisation of
    emotion-score keys into output field names. */
module FaceData {
  import opened Wrappers
  import opened Schemas

  /** A double, only ever copied from a detection into a record: its IEEE 754 bits. */
  datatype Float64 = Float64(bits: bv64)

  /** A face's bounding box in pixels. */
  datatype Rectangle = Rectangle(left: int, top: int, width: int, height: int)

  datatype FacialHair = FacialHair(mustache: Float64, beard: Float64, sideburns: Float64)

  datatype HeadPose = HeadPose(roll: Float64, yaw: Float64, pitch: Float64)

  /** Gender and glasses are enum constants of the detection client, held here
      by their names; `None` is a null reference. */
  datatype FaceAttributes = FaceAttributes(
    age: Float64,
    facialHair: Option<FacialHair>,
    gender: Option<string>,
    glasses: Option<string>,
    headPose: Option<HeadPose>,
    smile: Float64)

  datatype Face = Face(
    faceId: Option<string>,
    faceRectangle: Option<Rectangle>,
    attributes: Option<FaceAttributes>)

  /** An emotion detection: the rectangle it was found at and its scores, keyed
      by the names of the client's score constants, in iteration order. */
  datatype Emotion = Emotion(
    faceRectangle: Option<Rectangle>,
    scores: Option<seq<(string, Float64)>>)

  /** The columns of the output schema. */
  datatype Column =
    | RawImageData | RectangleLeft | RectangleTop | RectangleHeight | RectangleWidth
    | FaceId | Age | Mustache | Beard | Sideburns | Gender | Glasses
    | HeadPoseRoll | HeadPoseYaw | HeadPosePitch | Smile
    | Happiness | Neutral | Surprise | Fear | Anger | Contempt | Disgust | Sadness
  {
    /** The column's field name in the schema. */
    function Name(): string {
      match this
      case RawImageData => "raw_image_data"
      case RectangleLeft => "rectangle_left"
      case RectangleTop => "rectangle_top"
      case RectangleHeight => "rectangle_height"
      case RectangleWidth => "rectangle_width"
      case FaceId => "face_id"
      case Age => "age"
      case Mustache => "mustache"
      case Beard => "beard"
      case Sideburns => "sideburns"
      case Gender => "gender"
      case Glasses => "glasses"
      case HeadPoseRoll => "head_pose_roll"
      case HeadPoseYaw => "head_pose_yaw"
      case HeadPosePitch => "head_pose_pitch"
      case Smile => "smile"
      case Happiness => "happiness"
      case Neutral => "neutral"
      case Surprise => "surprise"
      case Fear => "fear"
      case Anger => "anger"
      case Contempt => "contempt"
      case Disgust => "disgust"
      case Sadness => "sadness"
    }

    /** The column's physical type, before it is made nullable. */
    function Type(): SimpleType {
      match this
      case RawImageData => BytesType
      case RectangleLeft | RectangleTop | RectangleHeight | RectangleWidth => IntType
      case FaceId | Gender | Glasses => StringType
      case _ => DoubleType
    }

    /** The eight columns filled from an emotion's scores. */
    predicate IsEmotion() {
      Happiness? || Neutral? || Surprise? || Fear? || Anger? || Contempt? || Disgust? || Sadness?
    }
  }

  /** The columns in schema order. */
  const Columns: seq<Column> := [
    RawImageData, RectangleLeft, RectangleTop, RectangleHeight, RectangleWidth,
    FaceId, Age, Mustache, Beard, Sideburns, Gender, Glasses,
    HeadPoseRoll, HeadPoseYaw, HeadPosePitch, Smile,
    Happiness, Neutral, Surprise, Fear, Anger, Contempt, Disgust, Sadness]

  /** The sixteen columns filled from the image and the face. */
  const FaceColumns: set<Column> := {
    RawImageData, RectangleLeft, RectangleTop, RectangleHeight, RectangleWidth,
    FaceId, Age, Mustache, Beard, Sideburns, Gender, Glasses,
    HeadPoseRoll, HeadPoseYaw, HeadPosePitch, Smile }

  /** The eight columns filled from the matching emotion's scores. */
  const EmotionColumns: set<Column> := {
    Happiness, Neutral, Surprise, Fear, Anger, Contempt, Disgust, Sadness }

  /** A value held by a record field. */
  datatype Value = Bytes(bytes: seq<bv8>) | Int(i: int) | Str(s: string) | Dbl(d: Float64) | Null

  /** An output record: the columns that were set, and their values. The
      host's `build()` fills every unset nullable field with null, so a column
      missing from the map reads as a column set to `Null`; the model keeps the
      two apart only to say which columns the plugin set. */
  type Record = map<Column, Value>

  /** The output schema the plugin declares: every column, made nullable. */
  const OutputSchema := RecordOf("output",
    seq(|Columns|, i requires 0 <= i < |Columns| => Field(Columns[i].Name(), NullableOf(Of(Columns[i].Type())))))

  /** The position of a column in the schema. */
  function Position(c: Column): (i: nat)
    ensures i < |Columns| && Columns[i] == c
  {
    match c
    case RawImageData => 0
    case RectangleLeft => 1
    case RectangleTop => 2
    case RectangleHeight => 3
    case RectangleWidth => 4
    case FaceId => 5
    case Age => 6
    case Mustache => 7
    case Beard => 8
    case Sideburns => 9
    case Gender => 10
    case Glasses => 11
    case HeadPoseRoll => 12
    case HeadPoseYaw => 13
    case HeadPosePitch => 14
    case Smile => 15
    case Happiness => 16
    case Neutral => 17
    case Surprise => 18
    case Fear => 19
    case Anger => 20
    case Contempt => 21
    case Disgust => 22
    case Sadness => 23
  }

  /** The declared output schema is a record of 24 fields, each column once,
      every one nullable over the column's type, with distinct names. */
  lemma OutputSchemaShape()
    ensures OutputSchema.RecordOf? && |OutputSchema.fields| == |Columns| == 24
    ensures forall i :: 0 <= i < 24 ==>
      OutputSchema.fields[i] == Field(Columns[i].Name(), NullableOf(Of(Columns[i].Type())))
    ensures forall f :: f in OutputSchema.fields ==> IsNullable(f.schema)
    ensures forall c: Column :: Columns[Position(c)] == c
    ensures forall i, j :: 0 <= i < j < 24 ==> Columns[i] != Columns[j]
    ensures forall i, j :: 0 <= i < j < 24 ==> OutputSchema.fields[i].name != OutputSchema.fields[j].name
  {
    forall i, j | 0 <= i < j < 24
      ensures Columns[i] != Columns[j]
    {
      ColumnNamesDistinct();
    }
    ColumnNamesDistinct();
  }

  /** The face and emotion columns split the schema's columns in two. */
  lemma ColumnGroups()
    ensures forall c: Column :: (c in EmotionColumns <==> c.IsEmotion()) && (c in FaceColumns <==> !c.IsEmotion())
    ensures forall c: Column :: c in Columns
  {
    forall c: Column
      ensures c in Columns
    {
      assert Columns[Position(c)] == c;
    }
  }

  lemma EmotionIsNotFace(c: Column)
    requires c.IsEmotion()
    ensures c !in FaceColumns && c in EmotionColumns
  {
  }

  /** Each position of the schema holds a different column. */
  lemma PositionOfColumn()
    ensures forall i :: 0 <= i < |Columns| ==> Position(Columns[i]) == i
  {
  }

  /** A string's length and its first and last characters; these already tell
      the column names apart. `Signature` and `ColumnOfSignature` only let the
      solver decide a name lookup cheaply: `ColumnNamedSpec` and
      `ColumnNamedName` state what the lookup means, the column whose name
      equals the string. */
  function Signature(s: string): (int, char, char) {
    if s == [] then (0, 0 as char, 0 as char) else (|s|, s[0], s[|s| - 1])
  }

  /** The column a name signature belongs to. */
  function ColumnOfSignature(sig: (int, char, char)): Option<Column> {
    match sig
    case (14, 'r', 'a') => Some(RawImageData)
    case (14, 'r', 't') => Some(RectangleLeft)
    case (13, 'r', 'p') => Some(RectangleTop)
    case (16, 'r', 't') => Some(RectangleHeight)
    case (15, 'r', 'h') => Some(RectangleWidth)
    case (7, 'f', 'd') => Some(FaceId)
    case (3, 'a', 'e') => Some(Age)
    case (8, 'm', 'e') => Some(Mustache)
    case (5, 'b', 'd') => Some(Beard)
    case (9, 's', 's') => Some(Sideburns)
    case (6, 'g', 'r') => Some(Gender)
    case (7, 'g', 's') => Some(Glasses)
    case (14, 'h', 'l') => Some(HeadPoseRoll)
    case (13, 'h', 'w') => Some(HeadPoseYaw)
    case (15, 'h', 'h') => Some(HeadPosePitch)
    case (5, 's', 'e') => Some(Smile)
    case (9, 'h', 's') => Some(Happiness)
    case (7, 'n', 'l') => Some(Neutral)
    case (8, 's', 'e') => Some(Surprise)
    case (4, 'f', 'r') => Some(Fear)
    case (5, 'a', 'r') => Some(Anger)
    case (8, 'c', 't') => Some(Contempt)
    case (7, 'd', 't') => Some(Disgust)
    case (7, 's', 's') => Some(Sadness)
    case _ => None
  }

  lemma SignatureIdentifies(c: Column)
    ensures ColumnOfSignature(Signature(c.Name())) == Some(c)
  {
  }

  /** No two columns share a name. */
  lemma ColumnNamesDistinct()
    ensures forall c: Column, d: Column :: c.Name() == d.Name() ==> c == d
    ensures forall i, j :: 0 <= i < j < |Columns| ==> Columns[i].Name() != Columns[j].Name()
  {
    forall c: Column, d: Column | c.Name() == d.Name()
      ensures c == d
    {
      SignatureIdentifies(c);
      SignatureIdentifies(d);
    }
    PositionOfColumn();
  }

  /** The schema's field of a given name, as `set(name, ...)` on a record
      builder resolves it: the column whose name equals `name`, if any. It is
      computed through the name's signature; its ensures,
      `ColumnNamedSpec` and `ColumnNamedName` prove that it finds exactly that
      column. */
  function ColumnNamed(name: string): (c: Option<Column>)
    ensures c.Some? ==> c.value.Name() == name
  {
    match ColumnOfSignature(Signature(name))
    case Some(c) => if c.Name() == name then Some(c) else None
    case None => None
  }

  /** Every column is found by its own name, and no other name finds one. */
  lemma ColumnNamedSpec(name: string)
    ensures ColumnNamed(name).None? <==> forall d: Column :: d.Name() != name
  {
    forall d: Column | d.Name() == name
      ensures ColumnNamed(name) == Some(d)
    {
      SignatureIdentifies(d);
    }
  }

  /** Looking a column up by its own name finds it. */
  lemma ColumnNamedName(c: Column)
    ensures ColumnNamed(c.Name()) == Some(c)
  {
    SignatureIdentifies(c);
  }

  /** ASCII lower-casing of one character. */
  function LowerChar(c: char): char {
    if 'A' <= c <= 'Z' then (c as int - 'A' as int + 'a' as int) as char else c
  }

  /** ASCII lower-casing of a string, character by character. */
  function LowerCase(s: string): string {
    seq(|s|, i requires 0 <= i < |s| => LowerChar(s[i]))
  }

  /** The output field a score is written to: its key lower-cased, with the
      misspelt `suprise` corrected to `surprise`. */
  function ScoreField(key: string): (field: string)
    ensures field != "suprise"
    ensures field == "surprise" <==> LowerCase(key) in {"surprise", "suprise"}
    ensures field != "surprise" ==> field == LowerCase(key)
  {
    var lower := LowerCase(key);
    if lower == "suprise" then "surprise" else lower
  }

  /** The column a score is written to, if the schema has one of that name. */
  function ScoreColumn(key: string): Option<Column> {
    ColumnNamed(ScoreField(key))
  }

  /** A score lands on a column exactly when its lower-cased key is that
      column's name, or is the misspelling `suprise` and the column is `surprise`. */
  lemma ScoreColumnOf(key: string, c: Column)
    ensures ScoreColumn(key) == Some(c) <==>
      LowerCase(key) == c.Name() || (c == Surprise && LowerCase(key) == "suprise")
  {
    ColumnNamedName(c);
    ColumnNamedName(Surprise);
    NotSuprise(c);
  }

  /** No column is named with the misspelling. */
  lemma NotSuprise(c: Column)
    ensures c.Name() != "suprise"
  {
    assert Signature("suprise") == (7, 's', 'e');
  }

  /** ASCII upper-casing of a string, character by character. */
  function UpperCase(s: string): string {
    seq(|s|, i requires 0 <= i < |s| => if 'a' <= s[i] <= 'z' then (s[i] as int - 'a' as int + 'A' as int) as char else s[i])
  }

  /** Column names are lower-case letters and underscores. */
  predicate LowerSnake(s: string) {
    forall i :: 0 <= i < |s| ==> 'a' <= s[i] <= 'z' || s[i] == '_'
  }

  lemma LowerUpper(s: string)
    requires LowerSnake(s)
    ensures LowerCase(UpperCase(s)) == s
  {
  }

  lemma EmotionNamesLowerSnake(c: Column)
    requires c.IsEmotion()
    ensures LowerSnake(c.Name())
  {
  }

  /** The score constant named by an emotion column's name in upper case lands
      on that column. */
  lemma EmotionConstantLands(c: Column)
    requires c.IsEmotion()
    ensures ScoreColumn(UpperCase(c.Name())) == Some(c)
  {
    EmotionNamesLowerSnake(c);
    LowerUpper(c.Name());
    ScoreColumnOf(UpperCase(c.Name()), c);
  }

  /** The misspelt constant lands on `surprise`. */
  lemma MisspeltConstantLands()
    ensures ScoreColumn("SUPRISE") == Some(Surprise)
  {
    assert LowerCase("SUPRISE") == "suprise";
    ScoreColumnOf("SUPRISE", Surprise);
  }
}
