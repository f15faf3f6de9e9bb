/** The 47 columns of the feature vector, in the order of `FEATURE_COLUMNS`.
    Each column is a constructor of `Feature`, named exactly like the column. */
module Schema {

  datatype Feature =
    | URLLength
    | DomainLength
    | IsDomainIP
    | CharContinuationRate
    | TLDLength
    | NoOfSubDomain
    | HasObfuscation
    | NoOfObfuscatedChar
    | ObfuscationRatio
    | NoOfLettersInURL
    | LetterRatioInURL
    | NoOfDegitsInURL
    | DegitRatioInURL
    | NoOfEqualsInURL
    | NoOfQMarkInURL
    | NoOfAmpersandInURL
    | NoOfOtherSpecialCharsInURL
    | SpacialCharRatioInURL
    | IsHTTPS
    | LineOfCode
    | LargestLineLength
    | HasTitle
    | DomainTitleMatchScore
    | URLTitleMatchScore
    | HasFavicon
    | Robots
    | IsResponsive
    | NoOfURLRedirect
    | NoOfSelfRedirect
    | HasDescription
    | NoOfPopup
    | NoOfiFrame
    | HasExternalFormSubmit
    | HasSocialNet
    | HasSubmitButton
    | HasHiddenFields
    | HasPasswordField
    | Bank
    | Pay
    | Crypto
    | HasCopyrightInfo
    | NoOfImage
    | NoOfCSS
    | NoOfJS
    | NoOfSelfRef
    | NoOfEmptyRef
    | NoOfExternalRef

  /** The `i`-th entry of `FEATURE_COLUMNS` (api/app.py:29-42). */
  function ColumnAt(i: nat): Feature
    requires i < 47
  {
    match i
    // the lexical and domain columns, computed for every URL
    case 0 => URLLength
    case 1 => DomainLength
    case 2 => IsDomainIP
    case 3 => CharContinuationRate
    case 4 => TLDLength
    case 5 => NoOfSubDomain
    case 6 => HasObfuscation
    case 7 => NoOfObfuscatedChar
    case 8 => ObfuscationRatio
    case 9 => NoOfLettersInURL
    case 10 => LetterRatioInURL
    case 11 => NoOfDegitsInURL
    case 12 => DegitRatioInURL
    case 13 => NoOfEqualsInURL
    case 14 => NoOfQMarkInURL
    case 15 => NoOfAmpersandInURL
    case 16 => NoOfOtherSpecialCharsInURL
    case 17 => SpacialCharRatioInURL
    case 18 => IsHTTPS
    // stage 1, set before the redirect history is examined (api/app.py:92-114)
    case 19 => LineOfCode
    case 20 => LargestLineLength
    case 21 => HasTitle
    case 22 => DomainTitleMatchScore
    case 23 => URLTitleMatchScore
    case 24 => HasFavicon
    case 25 => Robots
    case 26 => IsResponsive
    case 27 => NoOfURLRedirect
    // stage 2, set before the form actions are examined (api/app.py:115-129)
    case 28 => NoOfSelfRedirect
    case 29 => HasDescription
    case 30 => NoOfPopup
    case 31 => NoOfiFrame
    case 32 => HasExternalFormSubmit
    // stage 3, set before the anchors are examined (api/app.py:136-149)
    case 33 => HasSocialNet
    case 34 => HasSubmitButton
    case 35 => HasHiddenFields
    case 36 => HasPasswordField
    case 37 => Bank
    case 38 => Pay
    case 39 => Crypto
    case 40 => HasCopyrightInfo
    case 41 => NoOfImage
    case 42 => NoOfCSS
    case 43 => NoOfJS
    // stage 4, set after the anchor loop (api/app.py:150-163)
    case 44 => NoOfSelfRef
    case 45 => NoOfEmptyRef
    case 46 => NoOfExternalRef
  }

  /** `FEATURE_COLUMNS` */
  const Columns: seq<Feature> := seq(47, i requires 0 <= i < 47 => ColumnAt(i))

  /** The position of a feature in `Columns`. */
  function Index(f: Feature): (i: nat)
    ensures i < 47
  {
    match f
    case URLLength => 0
    case DomainLength => 1
    case IsDomainIP => 2
    case CharContinuationRate => 3
    case TLDLength => 4
    case NoOfSubDomain => 5
    case HasObfuscation => 6
    case NoOfObfuscatedChar => 7
    case ObfuscationRatio => 8
    case NoOfLettersInURL => 9
    case LetterRatioInURL => 10
    case NoOfDegitsInURL => 11
    case DegitRatioInURL => 12
    case NoOfEqualsInURL => 13
    case NoOfQMarkInURL => 14
    case NoOfAmpersandInURL => 15
    case NoOfOtherSpecialCharsInURL => 16
    case SpacialCharRatioInURL => 17
    case IsHTTPS => 18
    case LineOfCode => 19
    case LargestLineLength => 20
    case HasTitle => 21
    case DomainTitleMatchScore => 22
    case URLTitleMatchScore => 23
    case HasFavicon => 24
    case Robots => 25
    case IsResponsive => 26
    case NoOfURLRedirect => 27
    case NoOfSelfRedirect => 28
    case HasDescription => 29
    case NoOfPopup => 30
    case NoOfiFrame => 31
    case HasExternalFormSubmit => 32
    case HasSocialNet => 33
    case HasSubmitButton => 34
    case HasHiddenFields => 35
    case HasPasswordField => 36
    case Bank => 37
    case Pay => 38
    case Crypto => 39
    case HasCopyrightInfo => 40
    case NoOfImage => 41
    case NoOfCSS => 42
    case NoOfJS => 43
    case NoOfSelfRef => 44
    case NoOfEmptyRef => 45
    case NoOfExternalRef => 46
  }

  /** `Index` and `ColumnAt` are inverse bijections between the 47 features
      and the 47 positions. */
  lemma IndexOfColumnAt()
    ensures forall i :: 0 <= i < 47 ==> Index(ColumnAt(i)) == i
  {
  }

  lemma ColumnAtIndex()
    ensures forall f :: ColumnAt(Index(f)) == f
  {
  }

  /** `FEATURE_COLUMNS` has 47 entries, no two alike, and every feature sits at
      exactly one position, `Index(f)`. */
  lemma ColumnsAreDistinct()
    ensures |Columns| == 47
    ensures forall i :: 0 <= i < |Columns| ==> Index(Columns[i]) == i
    ensures forall f :: Columns[Index(f)] == f
    ensures forall i, j :: 0 <= i < j < |Columns| ==> Columns[i] != Columns[j]
  {
    IndexOfColumnAt();
    ColumnAtIndex();
    forall i, j | 0 <= i < j < |Columns|
      ensures Columns[i] != Columns[j]
    {
      assert Index(Columns[i]) != Index(Columns[j]);
    }
  }

  /** One past the last position of the columns of stages up to `s`: the 19
      lexical columns, then 9, 5, 11 and 3 columns for the four content
      stages. */
  function StageEnd(s: nat): (e: nat)
    ensures e <= 47
  {
    if s == 0 then 19
    else if s == 1 then 28
    else if s == 2 then 33
    else if s == 3 then 44
    else 47
  }

  /** The stage of `extract_features` that assigns a column: 0 for the
      lexical columns, 1 to 4 for the four content stages, as read off the
      column's position. */
  function StageOf(f: Feature): (s: nat)
    ensures s <= 4
  {
    var i := Index(f);
    if i < StageEnd(0) then 0
    else if i < StageEnd(1) then 1
    else if i < StageEnd(2) then 2
    else if i < StageEnd(3) then 3
    else 4
  }

  /** The lexical and domain columns, computed for every URL. */
  const LexicalColumns: seq<Feature> := Columns[..StageEnd(0)]

  /** The 28 content columns, in the order in which the analysis assigns
      them; this is also the order of the `content_features` list. */
  const ContentColumns: seq<Feature> := Columns[StageEnd(0)..]

  /** Along `FEATURE_COLUMNS` the stages never decrease: the columns of the
      stages up to `s` are exactly the first `StageEnd(s)`. */
  lemma StagesAlongColumns()
    ensures forall i, s :: 0 <= i < |Columns| && s <= 4 ==> (StageOf(Columns[i]) <= s <==> i < StageEnd(s))
  {
    ColumnsAreDistinct();
  }

  /** The first 19 columns, `LexicalColumns`, are those of stage 0; the
      other 28, `ContentColumns`, those of the stages 1 to 4. */
  lemma ColumnKinds()
    ensures |LexicalColumns| == 19 && |ContentColumns| == 28
    ensures Columns == LexicalColumns + ContentColumns
    ensures forall f :: f in LexicalColumns <==> StageOf(f) == 0
    ensures forall f :: f in ContentColumns <==> StageOf(f) > 0
  {
    ColumnsAreDistinct();
    forall f
      ensures f in LexicalColumns <==> StageOf(f) == 0
      ensures f in ContentColumns <==> StageOf(f) > 0
    {
      var i := Index(f);
      if i < 19 {
        assert LexicalColumns[i] == f;
      } else {
        assert ContentColumns[i - 19] == f;
      }
    }
  }
}
