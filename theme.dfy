/** The theme's colour roles and the `ThemeColor` selector: which role of a
    theme, and which shade of it, a widget asks for. */
module Themes {
  import opened Colors
  import opened ColorSets

  datatype Option<T> = None | Some(value: T)

  /** A role's full colour identity: a text colour and a backing ramp. */
  datatype ColorPair = ColorPair(text: Color, base: ColorSet)

  /** The derived `Default` of `ColorPair`: default text colour, empty ramp. */
  function DefaultColorPair(): (p: ColorPair)
    ensures p.text == WHITE && |p.base.shades| == 0
  {
    ColorPair(DefaultColor(), DefaultColorSet())
  }

  /** A selector of a theme colour. The eight role variants and `Custom`
      carry a shade on the 0..1000 scale; `Unique` carries its own pair. */
  datatype ThemeColor =
    | Primary(shade: real)
    | Secondary(shade: real)
    | Tertiary(shade: real)
    | Info(shade: real)
    | Warning(shade: real)
    | Success(shade: real)
    | Error(shade: real)
    | Surface(shade: real)
    | Custom(name: string, shade: real)
    | Unique(pair: ColorPair, shade: real)

  /** The eight fixed roles every theme defines. */
  datatype Role = Primary | Secondary | Tertiary | Info | Warning | Success | Error | Surface

  /** The conventional design-scale stops that have named constants. */
  datatype Stop = S50 | S100 | S200 | S300 | S400 | S500 | S600 | S700 | S800 | S900

  /** The shade a stop stands for. */
  function StopValue(s: Stop): nat {
    match s
    case S50 => 50
    case S100 => 100
    case S200 => 200
    case S300 => 300
    case S400 => 400
    case S500 => 500
    case S600 => 600
    case S700 => 700
    case S800 => 800
    case S900 => 900
  }

  /** The stops, lightest first. */
  const Stops: seq<Stop> := [S50, S100, S200, S300, S400, S500, S600, S700, S800, S900]

  /** The role variant of the selector for `role` at shade `x`. */
  function RoleVariant(role: Role, x: real): (tc: ThemeColor)
    ensures tc.shade == x
    ensures !tc.Custom? && !tc.Unique?
  {
    match role
    case Primary => ThemeColor.Primary(x)
    case Secondary => ThemeColor.Secondary(x)
    case Tertiary => ThemeColor.Tertiary(x)
    case Info => ThemeColor.Info(x)
    case Warning => ThemeColor.Warning(x)
    case Success => ThemeColor.Success(x)
    case Error => ThemeColor.Error(x)
    case Surface => ThemeColor.Surface(x)
  }

  /** The role a selector names, if it names one of the eight. */
  function RoleOf(tc: ThemeColor): (r: Option<Role>)
    ensures r.None? <==> tc.Custom? || tc.Unique?
  {
    match tc
    case Primary(_) => Some(Role.Primary)
    case Secondary(_) => Some(Role.Secondary)
    case Tertiary(_) => Some(Role.Tertiary)
    case Info(_) => Some(Role.Info)
    case Warning(_) => Some(Role.Warning)
    case Success(_) => Some(Role.Success)
    case Error(_) => Some(Role.Error)
    case Surface(_) => Some(Role.Surface)
    case Custom(_, _) => None
    case Unique(_, _) => None
  }

  /** The named constant `ROLE_k` of the source, as a function of role and
      stop. */
  function Const(role: Role, s: Stop): ThemeColor {
    RoleVariant(role, StopValue(s) as real)
  }

  /** The row of named constants of `role`, one per stop, lightest first. */
  function ConstRow(role: Role): seq<ThemeColor> {
    seq(|Stops|, k requires 0 <= k < |Stops| => Const(role, Stops[k]))
  }

  // The named constants, as the source declares them.
  const PRIMARY_50: ThemeColor := ThemeColor.Primary(50.0)
  const PRIMARY_100: ThemeColor := ThemeColor.Primary(100.0)
  const PRIMARY_200: ThemeColor := ThemeColor.Primary(200.0)
  const PRIMARY_300: ThemeColor := ThemeColor.Primary(300.0)
  const PRIMARY_400: ThemeColor := ThemeColor.Primary(400.0)
  const PRIMARY_500: ThemeColor := ThemeColor.Primary(500.0)
  const PRIMARY_600: ThemeColor := ThemeColor.Primary(600.0)
  const PRIMARY_700: ThemeColor := ThemeColor.Primary(700.0)
  const PRIMARY_800: ThemeColor := ThemeColor.Primary(800.0)
  const PRIMARY_900: ThemeColor := ThemeColor.Primary(900.0)

  const SECONDARY_50: ThemeColor := ThemeColor.Secondary(50.0)
  const SECONDARY_100: ThemeColor := ThemeColor.Secondary(100.0)
  const SECONDARY_200: ThemeColor := ThemeColor.Secondary(200.0)
  const SECONDARY_300: ThemeColor := ThemeColor.Secondary(300.0)
  const SECONDARY_400: ThemeColor := ThemeColor.Secondary(400.0)
  const SECONDARY_500: ThemeColor := ThemeColor.Secondary(500.0)
  const SECONDARY_600: ThemeColor := ThemeColor.Secondary(600.0)
  const SECONDARY_700: ThemeColor := ThemeColor.Secondary(700.0)
  const SECONDARY_800: ThemeColor := ThemeColor.Secondary(800.0)
  const SECONDARY_900: ThemeColor := ThemeColor.Secondary(900.0)

  const TERTIARY_50: ThemeColor := ThemeColor.Tertiary(50.0)
  const TERTIARY_100: ThemeColor := ThemeColor.Tertiary(100.0)
  const TERTIARY_200: ThemeColor := ThemeColor.Tertiary(200.0)
  const TERTIARY_300: ThemeColor := ThemeColor.Tertiary(300.0)
  const TERTIARY_400: ThemeColor := ThemeColor.Tertiary(400.0)
  const TERTIARY_500: ThemeColor := ThemeColor.Tertiary(500.0)
  const TERTIARY_600: ThemeColor := ThemeColor.Tertiary(600.0)
  const TERTIARY_700: ThemeColor := ThemeColor.Tertiary(700.0)
  const TERTIARY_800: ThemeColor := ThemeColor.Tertiary(800.0)
  const TERTIARY_900: ThemeColor := ThemeColor.Tertiary(900.0)

  const INFO_50: ThemeColor := ThemeColor.Info(50.0)
  const INFO_100: ThemeColor := ThemeColor.Info(100.0)
  const INFO_200: ThemeColor := ThemeColor.Info(200.0)
  const INFO_300: ThemeColor := ThemeColor.Info(300.0)
  const INFO_400: ThemeColor := ThemeColor.Info(400.0)
  const INFO_500: ThemeColor := ThemeColor.Info(500.0)
  const INFO_600: ThemeColor := ThemeColor.Info(600.0)
  const INFO_700: ThemeColor := ThemeColor.Info(700.0)
  const INFO_800: ThemeColor := ThemeColor.Info(800.0)
  const INFO_900: ThemeColor := ThemeColor.Info(900.0)

  const WARNING_50: ThemeColor := ThemeColor.Warning(50.0)
  const WARNING_100: ThemeColor := ThemeColor.Warning(100.0)
  const WARNING_200: ThemeColor := ThemeColor.Warning(200.0)
  const WARNING_300: ThemeColor := ThemeColor.Warning(300.0)
  const WARNING_400: ThemeColor := ThemeColor.Warning(400.0)
  const WARNING_500: ThemeColor := ThemeColor.Warning(500.0)
  const WARNING_600: ThemeColor := ThemeColor.Warning(600.0)
  const WARNING_700: ThemeColor := ThemeColor.Warning(700.0)
  const WARNING_800: ThemeColor := ThemeColor.Warning(800.0)
  const WARNING_900: ThemeColor := ThemeColor.Warning(900.0)

  const SUCCESS_50: ThemeColor := ThemeColor.Success(50.0)
  const SUCCESS_100: ThemeColor := ThemeColor.Success(100.0)
  const SUCCESS_200: ThemeColor := ThemeColor.Success(200.0)
  const SUCCESS_300: ThemeColor := ThemeColor.Success(300.0)
  const SUCCESS_400: ThemeColor := ThemeColor.Success(400.0)
  const SUCCESS_500: ThemeColor := ThemeColor.Success(500.0)
  const SUCCESS_600: ThemeColor := ThemeColor.Success(600.0)
  const SUCCESS_700: ThemeColor := ThemeColor.Success(700.0)
  const SUCCESS_800: ThemeColor := ThemeColor.Success(800.0)
  const SUCCESS_900: ThemeColor := ThemeColor.Success(900.0)

  const ERROR_50: ThemeColor := ThemeColor.Error(50.0)
  const ERROR_100: ThemeColor := ThemeColor.Error(100.0)
  const ERROR_200: ThemeColor := ThemeColor.Error(200.0)
  const ERROR_300: ThemeColor := ThemeColor.Error(300.0)
  const ERROR_400: ThemeColor := ThemeColor.Error(400.0)
  const ERROR_500: ThemeColor := ThemeColor.Error(500.0)
  const ERROR_600: ThemeColor := ThemeColor.Error(600.0)
  const ERROR_700: ThemeColor := ThemeColor.Error(700.0)
  const ERROR_800: ThemeColor := ThemeColor.Error(800.0)
  const ERROR_900: ThemeColor := ThemeColor.Error(900.0)

  const SURFACE_50: ThemeColor := ThemeColor.Surface(50.0)
  const SURFACE_100: ThemeColor := ThemeColor.Surface(100.0)
  const SURFACE_200: ThemeColor := ThemeColor.Surface(200.0)
  const SURFACE_300: ThemeColor := ThemeColor.Surface(300.0)
  const SURFACE_400: ThemeColor := ThemeColor.Surface(400.0)
  const SURFACE_500: ThemeColor := ThemeColor.Surface(500.0)
  const SURFACE_600: ThemeColor := ThemeColor.Surface(600.0)
  const SURFACE_700: ThemeColor := ThemeColor.Surface(700.0)
  const SURFACE_800: ThemeColor := ThemeColor.Surface(800.0)
  const SURFACE_900: ThemeColor := ThemeColor.Surface(900.0)

  /** `ThemeColor::default()`. */
  function Default(): ThemeColor {
    SURFACE_500
  }

  /** Host engine font handle; only stored here. */
  type FontHandle

  /** Host engine UI-scale-dependent four-component size; only stored here. */
  type NodeSizeVec4

  /** A complete theme: names, the eight role pairs, custom pairs, fonts,
      geometry tokens and two accent selectors. It has no behaviour. */
  datatype Theme = Theme(
    name: string,
    tags: seq<string>,
    primary: ColorPair,
    secondary: ColorPair,
    tertiary: ColorPair,
    info: ColorPair,
    warning: ColorPair,
    success: ColorPair,
    error: ColorPair,
    surface: ColorPair,
    text: Color,
    custom: map<string, ColorPair>,
    fontBase: FontHandle,
    fontHeading: FontHandle,
    roundingContainer: NodeSizeVec4,
    roundingBase: NodeSizeVec4,
    borderThickness: NodeSizeVec4,
    highlightColor: ThemeColor,
    borderColor: ThemeColor
  )

  // ---------------------------------------------------------------------
  // Properties

  /** `RoleOf` recovers the role of every role variant. */
  lemma RoleOfRoleVariant(role: Role, x: real)
    ensures RoleOf(RoleVariant(role, x)) == Some(role)
  {}

  /** Every selector naming a role is that role's variant at its own shade. */
  lemma RoleVariantOfRoleOf(tc: ThemeColor)
    requires RoleOf(tc).Some?
    ensures RoleVariant(RoleOf(tc).value, tc.shade) == tc
  {}

  /** The stops are 50, 100, 200, ..., 900, strictly increasing. */
  lemma StopsAscending()
    ensures |Stops| == 10
    ensures forall k :: 0 <= k < |Stops| ==> StopValue(Stops[k]) == if k == 0 then 50 else 100 * k
    ensures forall j, k :: 0 <= j < k < |Stops| ==> StopValue(Stops[j]) < StopValue(Stops[k])
    ensures forall s: Stop :: Stops[StopValue(s) / 100] == s
    ensures forall s: Stop :: s in Stops
  {
    forall k | 0 <= k < |Stops|
      ensures StopValue(Stops[k]) == if k == 0 then 50 else 100 * k
    {
    }
    forall s: Stop
      ensures Stops[StopValue(s) / 100] == s && s in Stops
    {
      match s
      case S50 => assert Stops[0] == s;
      case S100 => assert Stops[1] == s;
      case S200 => assert Stops[2] == s;
      case S300 => assert Stops[3] == s;
      case S400 => assert Stops[4] == s;
      case S500 => assert Stops[5] == s;
      case S600 => assert Stops[6] == s;
      case S700 => assert Stops[7] == s;
      case S800 => assert Stops[8] == s;
      case S900 => assert Stops[9] == s;
    }
  }

  /** Two named constants are equal only when role and stop are. */
  lemma ConstInjective(r1: Role, s1: Stop, r2: Role, s2: Stop)
    requires Const(r1, s1) == Const(r2, s2)
    ensures r1 == r2 && s1 == s2
  {
    RoleOfRoleVariant(r1, StopValue(s1) as real);
    RoleOfRoleVariant(r2, StopValue(s2) as real);
  }

  /** Each named constant selects its role at its stop's shade. */
  lemma ConstSelects(role: Role, s: Stop)
    ensures RoleOf(Const(role, s)) == Some(role)
    ensures Const(role, s).shade == StopValue(s) as real
  {
    RoleOfRoleVariant(role, StopValue(s) as real);
  }

  /** The declared `PRIMARY_k` constants are `Const(Role.Primary, Sk)`, and in
      declaration order they form the row of `Primary`. */
  lemma PrimaryConstants()
    ensures PRIMARY_50 == Const(Role.Primary, S50)
    ensures PRIMARY_100 == Const(Role.Primary, S100)
    ensures PRIMARY_200 == Const(Role.Primary, S200)
    ensures PRIMARY_300 == Const(Role.Primary, S300)
    ensures PRIMARY_400 == Const(Role.Primary, S400)
    ensures PRIMARY_500 == Const(Role.Primary, S500)
    ensures PRIMARY_600 == Const(Role.Primary, S600)
    ensures PRIMARY_700 == Const(Role.Primary, S700)
    ensures PRIMARY_800 == Const(Role.Primary, S800)
    ensures PRIMARY_900 == Const(Role.Primary, S900)
    ensures [PRIMARY_50, PRIMARY_100, PRIMARY_200, PRIMARY_300, PRIMARY_400, PRIMARY_500, PRIMARY_600, PRIMARY_700, PRIMARY_800, PRIMARY_900]
         == ConstRow(Role.Primary)
  {}

  /** The declared `SECONDARY_k` constants are `Const(Role.Secondary, Sk)`, and in
      declaration order they form the row of `Secondary`. */
  lemma SecondaryConstants()
    ensures SECONDARY_50 == Const(Role.Secondary, S50)
    ensures SECONDARY_100 == Const(Role.Secondary, S100)
    ensures SECONDARY_200 == Const(Role.Secondary, S200)
    ensures SECONDARY_300 == Const(Role.Secondary, S300)
    ensures SECONDARY_400 == Const(Role.Secondary, S400)
    ensures SECONDARY_500 == Const(Role.Secondary, S500)
    ensures SECONDARY_600 == Const(Role.Secondary, S600)
    ensures SECONDARY_700 == Const(Role.Secondary, S700)
    ensures SECONDARY_800 == Const(Role.Secondary, S800)
    ensures SECONDARY_900 == Const(Role.Secondary, S900)
    ensures [SECONDARY_50, SECONDARY_100, SECONDARY_200, SECONDARY_300, SECONDARY_400, SECONDARY_500, SECONDARY_600, SECONDARY_700, SECONDARY_800, SECONDARY_900]
         == ConstRow(Role.Secondary)
  {}

  /** The declared `TERTIARY_k` constants are `Const(Role.Tertiary, Sk)`, and in
      declaration order they form the row of `Tertiary`. */
  lemma TertiaryConstants()
    ensures TERTIARY_50 == Const(Role.Tertiary, S50)
    ensures TERTIARY_100 == Const(Role.Tertiary, S100)
    ensures TERTIARY_200 == Const(Role.Tertiary, S200)
    ensures TERTIARY_300 == Const(Role.Tertiary, S300)
    ensures TERTIARY_400 == Const(Role.Tertiary, S400)
    ensures TERTIARY_500 == Const(Role.Tertiary, S500)
    ensures TERTIARY_600 == Const(Role.Tertiary, S600)
    ensures TERTIARY_700 == Const(Role.Tertiary, S700)
    ensures TERTIARY_800 == Const(Role.Tertiary, S800)
    ensures TERTIARY_900 == Const(Role.Tertiary, S900)
    ensures [TERTIARY_50, TERTIARY_100, TERTIARY_200, TERTIARY_300, TERTIARY_400, TERTIARY_500, TERTIARY_600, TERTIARY_700, TERTIARY_800, TERTIARY_900]
         == ConstRow(Role.Tertiary)
  {}

  /** The declared `INFO_k` constants are `Const(Role.Info, Sk)`, and in
      declaration order they form the row of `Info`. */
  lemma InfoConstants()
    ensures INFO_50 == Const(Role.Info, S50)
    ensures INFO_100 == Const(Role.Info, S100)
    ensures INFO_200 == Const(Role.Info, S200)
    ensures INFO_300 == Const(Role.Info, S300)
    ensures INFO_400 == Const(Role.Info, S400)
    ensures INFO_500 == Const(Role.Info, S500)
    ensures INFO_600 == Const(Role.Info, S600)
    ensures INFO_700 == Const(Role.Info, S700)
    ensures INFO_800 == Const(Role.Info, S800)
    ensures INFO_900 == Const(Role.Info, S900)
    ensures [INFO_50, INFO_100, INFO_200, INFO_300, INFO_400, INFO_500, INFO_600, INFO_700, INFO_800, INFO_900]
         == ConstRow(Role.Info)
  {}

  /** The declared `WARNING_k` constants are `Const(Role.Warning, Sk)`, and in
      declaration order they form the row of `Warning`. */
  lemma WarningConstants()
    ensures WARNING_50 == Const(Role.Warning, S50)
    ensures WARNING_100 == Const(Role.Warning, S100)
    ensures WARNING_200 == Const(Role.Warning, S200)
    ensures WARNING_300 == Const(Role.Warning, S300)
    ensures WARNING_400 == Const(Role.Warning, S400)
    ensures WARNING_500 == Const(Role.Warning, S500)
    ensures WARNING_600 == Const(Role.Warning, S600)
    ensures WARNING_700 == Const(Role.Warning, S700)
    ensures WARNING_800 == Const(Role.Warning, S800)
    ensures WARNING_900 == Const(Role.Warning, S900)
    ensures [WARNING_50, WARNING_100, WARNING_200, WARNING_300, WARNING_400, WARNING_500, WARNING_600, WARNING_700, WARNING_800, WARNING_900]
         == ConstRow(Role.Warning)
  {}

  /** The declared `SUCCESS_k` constants are `Const(Role.Success, Sk)`, and in
      declaration order they form the row of `Success`. */
  lemma SuccessConstants()
    ensures SUCCESS_50 == Const(Role.Success, S50)
    ensures SUCCESS_100 == Const(Role.Success, S100)
    ensures SUCCESS_200 == Const(Role.Success, S200)
    ensures SUCCESS_300 == Const(Role.Success, S300)
    ensures SUCCESS_400 == Const(Role.Success, S400)
    ensures SUCCESS_500 == Const(Role.Success, S500)
    ensures SUCCESS_600 == Const(Role.Success, S600)
    ensures SUCCESS_700 == Const(Role.Success, S700)
    ensures SUCCESS_800 == Const(Role.Success, S800)
    ensures SUCCESS_900 == Const(Role.Success, S900)
    ensures [SUCCESS_50, SUCCESS_100, SUCCESS_200, SUCCESS_300, SUCCESS_400, SUCCESS_500, SUCCESS_600, SUCCESS_700, SUCCESS_800, SUCCESS_900]
         == ConstRow(Role.Success)
  {}

  /** The declared `ERROR_k` constants are `Const(Role.Error, Sk)`, and in
      declaration order they form the row of `Error`. */
  lemma ErrorConstants()
    ensures ERROR_50 == Const(Role.Error, S50)
    ensures ERROR_100 == Const(Role.Error, S100)
    ensures ERROR_200 == Const(Role.Error, S200)
    ensures ERROR_300 == Const(Role.Error, S300)
    ensures ERROR_400 == Const(Role.Error, S400)
    ensures ERROR_500 == Const(Role.Error, S500)
    ensures ERROR_600 == Const(Role.Error, S600)
    ensures ERROR_700 == Const(Role.Error, S700)
    ensures ERROR_800 == Const(Role.Error, S800)
    ensures ERROR_900 == Const(Role.Error, S900)
    ensures [ERROR_50, ERROR_100, ERROR_200, ERROR_300, ERROR_400, ERROR_500, ERROR_600, ERROR_700, ERROR_800, ERROR_900]
         == ConstRow(Role.Error)
  {}

  /** The declared `SURFACE_k` constants are `Const(Role.Surface, Sk)`, and in
      declaration order they form the row of `Surface`. */
  lemma SurfaceConstants()
    ensures SURFACE_50 == Const(Role.Surface, S50)
    ensures SURFACE_100 == Const(Role.Surface, S100)
    ensures SURFACE_200 == Const(Role.Surface, S200)
    ensures SURFACE_300 == Const(Role.Surface, S300)
    ensures SURFACE_400 == Const(Role.Surface, S400)
    ensures SURFACE_500 == Const(Role.Surface, S500)
    ensures SURFACE_600 == Const(Role.Surface, S600)
    ensures SURFACE_700 == Const(Role.Surface, S700)
    ensures SURFACE_800 == Const(Role.Surface, S800)
    ensures SURFACE_900 == Const(Role.Surface, S900)
    ensures [SURFACE_50, SURFACE_100, SURFACE_200, SURFACE_300, SURFACE_400, SURFACE_500, SURFACE_600, SURFACE_700, SURFACE_800, SURFACE_900]
         == ConstRow(Role.Surface)
  {}

  /** The default selector is the surface role at shade 500. */
  lemma DefaultIsSurface500()
    ensures Default() == ThemeColor.Surface(500.0)
    ensures Default() == Const(Role.Surface, S500)
  {}
}
