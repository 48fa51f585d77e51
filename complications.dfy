/**
 * The watch complication catalogue: groups, the members of each group, the
 * templates of each member and the text areas of each template, with the
 * flags the settings screens read (ring, gauge style, image, row-2 alignment).
 * Every table is a total function over a finite enumeration.
 */
module Complications {

  datatype Group = CircularSmallGroup | ExtraLargeGroup | Graphic | Modular | Utilitarian

  datatype Member =
    | CircularSmall | ExtraLarge
    | GraphicBezel | GraphicCircular | GraphicCorner | GraphicRectangular
    | ModularLarge | ModularSmall
    | UtilitarianLarge | UtilitarianSmall | UtilitarianSmallFlat

  datatype Template =
    | CircularSmallRingImage | CircularSmallSimpleImage | CircularSmallStackImage
    | CircularSmallRingText | CircularSmallSimpleText | CircularSmallStackText
    | ExtraLargeRingImage | ExtraLargeSimpleImage | ExtraLargeStackImage | ExtraLargeColumnsText
    | ExtraLargeRingText | ExtraLargeSimpleText | ExtraLargeStackText
    | ModularSmallRingImage | ModularSmallSimpleImage | ModularSmallStackImage | ModularSmallColumnsText
    | ModularSmallRingText | ModularSmallSimpleText | ModularSmallStackText
    | ModularLargeStandardBody | ModularLargeTallBody | ModularLargeColumns | ModularLargeTable
    | UtilitarianSmallFlatTemplate | UtilitarianSmallRingImage | UtilitarianSmallRingText
    | UtilitarianSmallSquare | UtilitarianLargeFlat
    | GraphicCornerCircularImage | GraphicCornerGaugeImage | GraphicCornerGaugeText
    | GraphicCornerStackText | GraphicCornerTextImage
    | GraphicCircularImage | GraphicCircularClosedGaugeImage | GraphicCircularOpenGaugeImage
    | GraphicCircularClosedGaugeText | GraphicCircularOpenGaugeSimpleText | GraphicCircularOpenGaugeRangeText
    | GraphicBezelCircularText
    | GraphicRectangularStandardBody | GraphicRectangularTextGauge | GraphicRectangularLargeImage

  datatype TextArea =
    | Body1 | Body2 | Bottom | Center | Header | Inner | InsideRing | Leading
    | Line1 | Line2 | Outer
    | Row1Column1 | Row1Column2 | Row2Column1 | Row2Column2 | Row3Column1 | Row3Column2
    | Trailing

  const AllGroups: seq<Group> := [CircularSmallGroup, ExtraLargeGroup, Graphic, Modular, Utilitarian]

  const AllMembers: seq<Member> :=
    [ CircularSmall, ExtraLarge, GraphicBezel, GraphicCircular, GraphicCorner, GraphicRectangular,
      ModularLarge, ModularSmall, UtilitarianLarge, UtilitarianSmall, UtilitarianSmallFlat ]

  /** `ComplicationGroup.members`. */
  function GroupMembers(g: Group): seq<Member> {
    match g
    case CircularSmallGroup => [CircularSmall]
    case ExtraLargeGroup => [ExtraLarge]
    case Graphic => [GraphicBezel, GraphicCircular, GraphicCorner, GraphicRectangular]
    case Modular => [ModularLarge, ModularSmall]
    case Utilitarian => [UtilitarianLarge, UtilitarianSmall, UtilitarianSmallFlat]
  }

  /** The raw value of a member, which is its case name. */
  function MemberName(m: Member): string {
    match m
    case CircularSmall => "circularSmall"
    case ExtraLarge => "extraLarge"
    case GraphicBezel => "graphicBezel"
    case GraphicCircular => "graphicCircular"
    case GraphicCorner => "graphicCorner"
    case GraphicRectangular => "graphicRectangular"
    case ModularLarge => "modularLarge"
    case ModularSmall => "modularSmall"
    case UtilitarianLarge => "utilitarianLarge"
    case UtilitarianSmall => "utilitarianSmall"
    case UtilitarianSmallFlat => "utilitarianSmallFlat"
  }

  /** `ComplicationGroupMember.init(name:)`: an unknown name falls back to circular small. */
  function MemberFromName(name: string): Member {
    match name
    case "circularSmall" => CircularSmall
    case "extraLarge" => ExtraLarge
    case "graphicBezel" => GraphicBezel
    case "graphicCircular" => GraphicCircular
    case "graphicCorner" => GraphicCorner
    case "graphicRectangular" => GraphicRectangular
    case "modularLarge" => ModularLarge
    case "modularSmall" => ModularSmall
    case "utilitarianLarge" => UtilitarianLarge
    case "utilitarianSmall" => UtilitarianSmall
    case "utilitarianSmallFlat" => UtilitarianSmallFlat
    case _ => CircularSmall
  }

  /** `ComplicationGroupMember.group`. */
  function MemberGroup(m: Member): Group {
    match m
    case CircularSmall => CircularSmallGroup
    case ExtraLarge => ExtraLargeGroup
    case GraphicBezel | GraphicCircular | GraphicCorner | GraphicRectangular => Graphic
    case ModularLarge | ModularSmall => Modular
    case UtilitarianLarge | UtilitarianSmall | UtilitarianSmallFlat => Utilitarian
  }

  /** `ComplicationGroupMember.templates`. */
  function MemberTemplates(m: Member): seq<Template> {
    match m
    case CircularSmall =>
      [ CircularSmallRingImage, CircularSmallSimpleImage, CircularSmallStackImage,
        CircularSmallRingText, CircularSmallSimpleText, CircularSmallStackText ]
    case ExtraLarge =>
      [ ExtraLargeRingImage, ExtraLargeSimpleImage, ExtraLargeStackImage, ExtraLargeColumnsText,
        ExtraLargeRingText, ExtraLargeSimpleText, ExtraLargeStackText ]
    case ModularSmall =>
      [ ModularSmallRingImage, ModularSmallSimpleImage, ModularSmallStackImage,
        ModularSmallColumnsText, ModularSmallRingText, ModularSmallSimpleText, ModularSmallStackText ]
    case ModularLarge =>
      [ModularLargeStandardBody, ModularLargeTallBody, ModularLargeColumns, ModularLargeTable]
    case UtilitarianSmall =>
      [UtilitarianSmallRingImage, UtilitarianSmallRingText, UtilitarianSmallSquare]
    case UtilitarianSmallFlat =>
      [UtilitarianSmallFlatTemplate]
    case UtilitarianLarge =>
      [UtilitarianLargeFlat]
    case GraphicCorner =>
      [ GraphicCornerCircularImage, GraphicCornerGaugeImage, GraphicCornerGaugeText,
        GraphicCornerStackText, GraphicCornerTextImage ]
    case GraphicCircular =>
      [ GraphicCircularImage, GraphicCircularClosedGaugeImage, GraphicCircularOpenGaugeImage,
        GraphicCircularClosedGaugeText, GraphicCircularOpenGaugeSimpleText,
        GraphicCircularOpenGaugeRangeText ]
    case GraphicBezel =>
      [GraphicBezelCircularText]
    case GraphicRectangular =>
      [GraphicRectangularStandardBody, GraphicRectangularTextGauge, GraphicRectangularLargeImage]
  }

  /** `ComplicationTemplate.type`. */
  function TemplateType(t: Template): string {
    match t
    case CircularSmallRingImage | CircularSmallSimpleImage | CircularSmallStackImage => "image"
    case CircularSmallRingText | CircularSmallSimpleText | CircularSmallStackText => "text"
    case ExtraLargeRingImage | ExtraLargeSimpleImage | ExtraLargeStackImage => "image"
    case ExtraLargeColumnsText | ExtraLargeRingText | ExtraLargeSimpleText | ExtraLargeStackText => "text"
    case ModularSmallRingImage | ModularSmallSimpleImage | ModularSmallStackImage => "image"
    case ModularSmallColumnsText | ModularSmallRingText | ModularSmallSimpleText | ModularSmallStackText => "text"
    case ModularLargeStandardBody | ModularLargeTallBody => "body"
    case ModularLargeColumns | ModularLargeTable => "table"
    case UtilitarianSmallFlatTemplate | UtilitarianSmallRingImage | UtilitarianSmallRingText => "text"
    case UtilitarianSmallSquare => "image"
    case UtilitarianLargeFlat => "text"
    case GraphicCornerGaugeText | GraphicCornerStackText => "text"
    case GraphicCornerCircularImage | GraphicCornerGaugeImage | GraphicCornerTextImage => "image"
    case GraphicCircularClosedGaugeText | GraphicCircularOpenGaugeSimpleText | GraphicCircularOpenGaugeRangeText => "text"
    case GraphicCircularImage | GraphicCircularClosedGaugeImage | GraphicCircularOpenGaugeImage => "image"
    case GraphicBezelCircularText => "text"
    case GraphicRectangularStandardBody | GraphicRectangularTextGauge => "text"
    case GraphicRectangularLargeImage => "image"
  }

  /** `ComplicationTemplate.group`, a table of its own in the source. */
  function TemplateGroup(t: Template): Group {
    match t
    case CircularSmallRingImage | CircularSmallSimpleImage | CircularSmallStackImage | CircularSmallRingText
      | CircularSmallSimpleText | CircularSmallStackText => CircularSmallGroup
    case ExtraLargeRingImage | ExtraLargeSimpleImage | ExtraLargeStackImage | ExtraLargeColumnsText
      | ExtraLargeRingText | ExtraLargeSimpleText | ExtraLargeStackText => ExtraLargeGroup
    case ModularSmallRingImage | ModularSmallSimpleImage | ModularSmallStackImage
      | ModularSmallColumnsText | ModularSmallRingText | ModularSmallSimpleText | ModularSmallStackText
      | ModularLargeStandardBody | ModularLargeTallBody | ModularLargeColumns | ModularLargeTable => Modular
    case UtilitarianSmallFlatTemplate | UtilitarianSmallRingImage | UtilitarianSmallRingText
      | UtilitarianSmallSquare | UtilitarianLargeFlat => Utilitarian
    case GraphicCornerCircularImage | GraphicCornerGaugeImage | GraphicCornerGaugeText | GraphicCornerStackText
      | GraphicCornerTextImage | GraphicCircularImage | GraphicCircularClosedGaugeImage
      | GraphicCircularOpenGaugeImage | GraphicCircularClosedGaugeText | GraphicCircularOpenGaugeSimpleText
      | GraphicCircularOpenGaugeRangeText | GraphicBezelCircularText | GraphicRectangularStandardBody
      | GraphicRectangularTextGauge | GraphicRectangularLargeImage => Graphic
  }

  /** `ComplicationTemplate.groupMember`. */
  function TemplateMember(t: Template): Member {
    match t
    case CircularSmallRingImage | CircularSmallSimpleImage | CircularSmallStackImage | CircularSmallRingText
      | CircularSmallSimpleText | CircularSmallStackText => CircularSmall
    case ExtraLargeRingImage | ExtraLargeSimpleImage | ExtraLargeStackImage | ExtraLargeColumnsText
      | ExtraLargeRingText | ExtraLargeSimpleText | ExtraLargeStackText => ExtraLarge
    case ModularSmallRingImage | ModularSmallSimpleImage | ModularSmallStackImage | ModularSmallColumnsText
      | ModularSmallRingText | ModularSmallSimpleText | ModularSmallStackText => ModularSmall
    case ModularLargeStandardBody | ModularLargeTallBody | ModularLargeColumns | ModularLargeTable => ModularLarge
    case UtilitarianSmallFlatTemplate => UtilitarianSmallFlat
    case UtilitarianSmallRingImage | UtilitarianSmallRingText | UtilitarianSmallSquare => UtilitarianSmall
    case UtilitarianLargeFlat => UtilitarianLarge
    case GraphicCornerCircularImage | GraphicCornerGaugeImage | GraphicCornerGaugeText | GraphicCornerStackText
      | GraphicCornerTextImage => GraphicCorner
    case GraphicCircularImage | GraphicCircularClosedGaugeImage | GraphicCircularOpenGaugeImage
      | GraphicCircularClosedGaugeText | GraphicCircularOpenGaugeSimpleText
      | GraphicCircularOpenGaugeRangeText => GraphicCircular
    case GraphicBezelCircularText => GraphicBezel
    case GraphicRectangularStandardBody | GraphicRectangularTextGauge
      | GraphicRectangularLargeImage => GraphicRectangular
  }

  /** `ComplicationTemplate.textAreas`. */
  function TextAreas(t: Template): seq<TextArea> {
    match t
    case CircularSmallRingImage => []
    case CircularSmallSimpleImage => []
    case CircularSmallStackImage => [Line2]
    case CircularSmallRingText => [InsideRing]
    case CircularSmallSimpleText => [Center]
    case CircularSmallStackText => [Line1, Line2]
    case ExtraLargeRingImage => []
    case ExtraLargeSimpleImage => []
    case ExtraLargeStackImage => [Line2]
    case ExtraLargeColumnsText => [Row1Column1, Row1Column2, Row2Column1, Row2Column2]
    case ExtraLargeRingText => [InsideRing]
    case ExtraLargeSimpleText => [Center]
    case ExtraLargeStackText => [Line1, Line2]
    case ModularSmallRingImage => []
    case ModularSmallSimpleImage => []
    case ModularSmallStackImage => [Line2]
    case ModularSmallColumnsText => [Row1Column1, Row1Column2, Row2Column1, Row2Column2]
    case ModularSmallRingText => [InsideRing]
    case ModularSmallSimpleText => [Center]
    case ModularSmallStackText => [Line1, Line2]
    case ModularLargeStandardBody => [Header, Line1, Line2]
    case ModularLargeTallBody => [Header, Center]
    case ModularLargeColumns => [Row1Column1, Row1Column2, Row2Column1, Row2Column2]
    case ModularLargeTable => [Header, Row1Column1, Row1Column2, Row2Column1, Row2Column2]
    case UtilitarianSmallFlatTemplate => [Center]
    case UtilitarianSmallRingImage => []
    case UtilitarianSmallRingText => [InsideRing]
    case UtilitarianSmallSquare => []
    case UtilitarianLargeFlat => [Center]
    case GraphicCornerCircularImage => []
    case GraphicCornerGaugeImage => [Leading, Trailing]
    case GraphicCornerGaugeText => [Outer, Leading, Trailing]
    case GraphicCornerStackText => [Outer, Inner]
    case GraphicCornerTextImage => [Center]
    case GraphicCircularImage => []
    case GraphicCircularClosedGaugeImage => []
    case GraphicCircularOpenGaugeImage => [Center]
    case GraphicCircularClosedGaugeText => [Center]
    case GraphicCircularOpenGaugeSimpleText => [Center, Bottom]
    case GraphicCircularOpenGaugeRangeText => [Center, Leading, Trailing]
    case GraphicBezelCircularText => [Center]
    case GraphicRectangularStandardBody => [Header, Body1, Body2]
    case GraphicRectangularTextGauge => [Header, Body1]
    case GraphicRectangularLargeImage => [Header]
  }

  predicate HasRing(t: Template) {
    t in {CircularSmallRingImage, CircularSmallRingText, ExtraLargeRingImage, ExtraLargeRingText,
          ModularSmallRingImage, ModularSmallRingText, UtilitarianSmallRingImage, UtilitarianSmallRingText}
  }

  predicate HasGauge(t: Template) {
    t in {GraphicCircularClosedGaugeImage, GraphicCircularClosedGaugeText, GraphicCircularOpenGaugeImage,
          GraphicCircularOpenGaugeRangeText, GraphicCircularOpenGaugeSimpleText, GraphicCornerGaugeImage,
          GraphicCornerGaugeText, GraphicRectangularTextGauge}
  }

  predicate GaugeCanBeEitherStyle(t: Template) {
    t in {GraphicCornerGaugeImage, GraphicCornerGaugeText, GraphicRectangularTextGauge}
  }

  predicate GaugeIsOpenStyle(t: Template) {
    t in {GraphicCircularOpenGaugeImage, GraphicCircularOpenGaugeRangeText, GraphicCircularOpenGaugeSimpleText}
  }

  predicate GaugeIsClosedStyle(t: Template) {
    t in {GraphicCircularClosedGaugeImage, GraphicCircularClosedGaugeText}
  }

  predicate HasImage(t: Template) {
    t in {CircularSmallRingImage, CircularSmallSimpleImage, CircularSmallStackImage, ExtraLargeRingImage,
          ExtraLargeSimpleImage, ExtraLargeStackImage, ModularSmallRingImage, ModularSmallSimpleImage,
          ModularSmallStackImage, UtilitarianSmallSquare, UtilitarianSmallRingImage, GraphicCornerCircularImage,
          GraphicCornerGaugeImage, GraphicCornerTextImage, GraphicCircularImage,
          GraphicCircularClosedGaugeImage, GraphicCircularOpenGaugeImage, GraphicRectangularLargeImage}
  }

  predicate SupportsRow2Alignment(t: Template) {
    t in {ModularLargeColumns, ModularLargeTable, ExtraLargeColumnsText}
  }

  /** The raw value of a text area, the key a stored complication uses for it. */
  function TextAreaName(a: TextArea): string {
    match a
    case Body1 => "Body 1"
    case Body2 => "Body 2"
    case Bottom => "Bottom"
    case Center => "Center"
    case Header => "Header"
    case Inner => "Inner"
    case InsideRing => "Inside Ring"
    case Leading => "Leading"
    case Line1 => "Line 1"
    case Line2 => "Line 2"
    case Outer => "Outer"
    case Row1Column1 => "Row 1, Column 1"
    case Row1Column2 => "Row 1, Column 2"
    case Row2Column1 => "Row 2, Column 1"
    case Row2Column2 => "Row 2, Column 2"
    case Row3Column1 => "Row 3, Column 1"
    case Row3Column2 => "Row 3, Column 2"
    case Trailing => "Trailing"
  }

  /** The templates of the members `ms`, one member's list after the other. */
  function TemplatesOf(ms: seq<Member>): seq<Template> {
    if ms == [] then [] else MemberTemplates(ms[0]) + TemplatesOf(ms[1..])
  }

  predicate NoDuplicates<T(==)>(s: seq<T>) {
    forall i, j :: 0 <= i < j < |s| ==> s[i] != s[j]
  }

  // ---------------------------------------------------------------------
  // Consistency of the tables
  // ---------------------------------------------------------------------

  /** Naming a member by its raw value gives the member back. */
  lemma MemberNameRoundTrip(m: Member)
    ensures MemberFromName(MemberName(m)) == m
  {
  }

  /** A name that is no member's raw value gives circular small. */
  lemma UnknownMemberName(name: string)
    requires forall m: Member :: MemberName(m) != name
    ensures MemberFromName(name) == CircularSmall
  {
    assert MemberName(ExtraLarge) != name && MemberName(GraphicBezel) != name;
    assert MemberName(GraphicCircular) != name && MemberName(GraphicCorner) != name;
    assert MemberName(GraphicRectangular) != name && MemberName(ModularLarge) != name;
    assert MemberName(ModularSmall) != name && MemberName(UtilitarianLarge) != name;
    assert MemberName(UtilitarianSmall) != name && MemberName(UtilitarianSmallFlat) != name;
  }

  /** Raw member names are pairwise distinct. */
  lemma MemberNamesDistinct(m1: Member, m2: Member)
    requires m1 != m2
    ensures MemberName(m1) != MemberName(m2)
  {
    MemberNameRoundTrip(m1);
    MemberNameRoundTrip(m2);
  }

  /** Each member is listed by its own group, and each group lists only its own members. */
  lemma GroupMembership(g: Group, m: Member)
    ensures m in GroupMembers(g) <==> MemberGroup(m) == g
  {
  }

  /** The member lists of the groups partition all eleven members. */
  lemma GroupMembersPartition()
    ensures GroupMembers(CircularSmallGroup) + GroupMembers(ExtraLargeGroup) + GroupMembers(Graphic)
            + GroupMembers(Modular) + GroupMembers(Utilitarian) == AllMembers
    ensures |AllMembers| == 11 && NoDuplicates(AllMembers)
    ensures forall m: Member :: m in AllMembers
  {
    forall m: Member ensures m in AllMembers {
      GroupMembership(MemberGroup(m), m);
    }
  }

  /** A template is listed by exactly the member that `groupMember` names. */
  lemma TemplateMembership(m: Member, t: Template)
    ensures t in MemberTemplates(m) <==> TemplateMember(t) == m
  {
    ListedTemplatesBelong(m);
    TemplateInOwnList(t);
  }

  /** Every template a member lists names that member. */
  lemma ListedTemplatesBelong(m: Member)
    ensures forall i :: 0 <= i < |MemberTemplates(m)| ==> TemplateMember(MemberTemplates(m)[i]) == m
  {
  }

  /** Every template is listed by the member it names. */
  lemma TemplateInOwnList(t: Template)
    ensures t in MemberTemplates(TemplateMember(t))
  {
  }

  lemma MemberTemplatesDistinct(m: Member)
    ensures NoDuplicates(MemberTemplates(m))
  {
  }

  /** The lists of distinct members hold distinct templates, and exactly those of the members. */
  lemma {:induction false} TemplatesOfPartition(ms: seq<Member>)
    requires NoDuplicates(ms)
    ensures forall t :: t in TemplatesOf(ms) <==> TemplateMember(t) in ms
    ensures NoDuplicates(TemplatesOf(ms))
  {
    if ms != [] {
      var head, rest := MemberTemplates(ms[0]), TemplatesOf(ms[1..]);
      TemplatesOfPartition(ms[1..]);
      MemberTemplatesDistinct(ms[0]);
      forall t ensures t in head <==> TemplateMember(t) == ms[0] {
        TemplateMembership(ms[0], t);
      }
      assert forall t :: t in head ==> t !in rest;
      assert TemplatesOf(ms) == head + rest;
      forall i, j | 0 <= i < j < |head + rest| ensures (head + rest)[i] != (head + rest)[j] {
        if j < |head| {
        } else if i >= |head| {
          assert (head + rest)[i] == rest[i - |head|];
          assert (head + rest)[j] == rest[j - |head|];
        } else {
          assert (head + rest)[i] in head;
          assert (head + rest)[j] in rest;
        }
      }
    }
  }

  /** The member template lists partition the 44 templates, with none listed twice. */
  lemma TemplatesPartition()
    ensures |TemplatesOf(AllMembers)| == 44
    ensures NoDuplicates(TemplatesOf(AllMembers))
    ensures forall t: Template :: t in TemplatesOf(AllMembers)
  {
    GroupMembersPartition();
    TemplatesOfPartition(AllMembers);
    TemplatesCount();
  }

  /** The member template lists hold 44 entries in all. */
  lemma TemplatesCount()
    ensures |TemplatesOf(AllMembers)| == 44
  {
    var ms := AllMembers;
    assert |TemplatesOf(ms[11..])| == 0;
    TemplatesOfLength(ms[10..]);
    assert ms[10..][1..] == ms[11..];
    assert |TemplatesOf(ms[10..])| == 1;
    TemplatesOfLength(ms[9..]);
    assert ms[9..][1..] == ms[10..];
    assert |TemplatesOf(ms[9..])| == 4;
    TemplatesOfLength(ms[8..]);
    assert ms[8..][1..] == ms[9..];
    assert |TemplatesOf(ms[8..])| == 5;
    TemplatesOfLength(ms[7..]);
    assert ms[7..][1..] == ms[8..];
    assert |TemplatesOf(ms[7..])| == 12;
    TemplatesOfLength(ms[6..]);
    assert ms[6..][1..] == ms[7..];
    assert |TemplatesOf(ms[6..])| == 16;
    TemplatesOfLength(ms[5..]);
    assert ms[5..][1..] == ms[6..];
    assert |TemplatesOf(ms[5..])| == 19;
    TemplatesOfLength(ms[4..]);
    assert ms[4..][1..] == ms[5..];
    assert |TemplatesOf(ms[4..])| == 24;
    TemplatesOfLength(ms[3..]);
    assert ms[3..][1..] == ms[4..];
    assert |TemplatesOf(ms[3..])| == 30;
    TemplatesOfLength(ms[2..]);
    assert ms[2..][1..] == ms[3..];
    assert |TemplatesOf(ms[2..])| == 31;
    TemplatesOfLength(ms[1..]);
    assert ms[1..][1..] == ms[2..];
    assert |TemplatesOf(ms[1..])| == 38;
    TemplatesOfLength(ms[0..]);
    assert ms[0..][1..] == ms[1..];
    assert |TemplatesOf(ms[0..])| == 44;
  }

  /** The templates of a non-empty member list: the first member's, then the rest's. */
  lemma TemplatesOfLength(ms: seq<Member>)
    requires ms != []
    ensures |TemplatesOf(ms)| == |MemberTemplates(ms[0])| + |TemplatesOf(ms[1..])|
  {
  }

  /** The group a template names is the group of its member. */
  lemma TemplateGroupAgrees(t: Template)
    ensures TemplateGroup(t) == MemberGroup(TemplateMember(t))
  {
  }

  /** A template has a gauge exactly when exactly one gauge style applies to it. */
  lemma GaugeStyleExclusive(t: Template)
    ensures HasGauge(t) <==>
      (if GaugeIsOpenStyle(t) then 1 else 0) + (if GaugeIsClosedStyle(t) then 1 else 0)
      + (if GaugeCanBeEitherStyle(t) then 1 else 0) == 1
    ensures !HasGauge(t) ==> !GaugeIsOpenStyle(t) && !GaugeIsClosedStyle(t) && !GaugeCanBeEitherStyle(t)
  {
  }

  /** An image template shows an image (the converse fails for UtilitarianSmallRingImage). */
  lemma ImageTypeHasImage(t: Template)
    ensures TemplateType(t) == "image" ==> HasImage(t)
    ensures HasImage(t) && TemplateType(t) != "image" <==> t == UtilitarianSmallRingImage
  {
  }

  /** The only text a ring template can carry is inside the ring. */
  lemma RingTextAreas(t: Template)
    requires HasRing(t)
    ensures forall a :: a in TextAreas(t) ==> a == InsideRing
  {
  }

  /** Templates that align row 2 have both row-2 columns. */
  lemma Row2AlignmentAreas(t: Template)
    requires SupportsRow2Alignment(t)
    ensures Row2Column1 in TextAreas(t) && Row2Column2 in TextAreas(t)
  {
  }

  /** No template lists a text area twice, and none uses the row-3 areas. */
  lemma TextAreasWellFormed(t: Template)
    ensures NoDuplicates(TextAreas(t))
    ensures Row3Column1 !in TextAreas(t) && Row3Column2 !in TextAreas(t)
  {
  }

  /** Text area raw values are pairwise distinct, so they can key a dictionary. */
  lemma TextAreaNamesDistinct(a1: TextArea, a2: TextArea)
    requires a1 != a2
    ensures TextAreaName(a1) != TextAreaName(a2)
  {
  }
}
