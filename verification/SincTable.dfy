/**
 * The windowed sinc function of the resampling filter: 600 steps over twelve lobes. The values are laid out by the
 * point between two samples that they belong to, with the twelve weights of the filter at that point next to each other.
 */
module SincTable {
  const SINC_FILTER_POINTS := 12
  const SINC_TABLE_SIZE := 601

  /** Table entries per lobe. */
  const LOBE_POINTS := 50

  /** The range of the table is checked entry by entry. */
  type SincValue = x: int | -6175 <= x <= 32767

  datatype Column = Column(t0: SincValue, t1: SincValue, t2: SincValue, t3: SincValue, t4: SincValue, t5: SincValue,
                       t6: SincValue, t7: SincValue, t8: SincValue, t9: SincValue, t10: SincValue, t11: SincValue)
  {
    function Sum(): int {
      t0 as int + t1 as int + t2 as int + t3 as int + t4 as int + t5 as int
      + t6 as int + t7 as int + t8 as int + t9 as int + t10 as int + t11 as int
    }

    function At(i: nat): SincValue
      requires i < SINC_FILTER_POINTS
    {
      match i
      case 0 => t0 case 1 => t1 case 2 => t2 case 3 => t3 case 4 => t4 case 5 => t5
      case 6 => t6 case 7 => t7 case 8 => t8 case 9 => t9 case 10 => t10 case _ => t11
    }
  }

  /** One, in the scale of the table, up to a thousandth. */
  predicate IsOne(sum: int) {
    32766 <= sum <= 32798
  }

  /** At every point the taps add up to one, which is checked point by point. */
  type Point = c: Column | IsOne(c.Sum()) witness ON_A_SAMPLE

  /** On a sample only the middle tap counts. */
  const ON_A_SAMPLE := Column(0, 0, 0, 0, 0, 0, 32767, 0, 0, 0, 0, 0)

  function Checked(t0: SincValue, t1: SincValue, t2: SincValue, t3: SincValue, t4: SincValue, t5: SincValue,
                   t6: SincValue, t7: SincValue, t8: SincValue, t9: SincValue, t10: SincValue, t11: SincValue): Point
    requires IsOne(Column(t0, t1, t2, t3, t4, t5, t6, t7, t8, t9, t10, t11).Sum())
  {
    Column(t0, t1, t2, t3, t4, t5, t6, t7, t8, t9, t10, t11)
  }

  const POINTS_FROM_1: seq<Point> := [
    Checked(0, 9, -41, 111, -249, 625, 32744, -597, 241, -107, 39, -8),
    Checked(0, 19, -85, 225, -506, 1277, 32677, -1166, 474, -210, 77, -16),
    Checked(0, 29, -130, 342, -769, 1955, 32565, -1705, 698, -309, 113, -22),
    Checked(0, 41, -177, 462, -1037, 2658, 32408, -2214, 912, -403, 147, -29),
    Checked(0, 53, -225, 584, -1310, 3386, 32208, -2693, 1115, -492, 178, -34),
    Checked(0, 65, -274, 708, -1586, 4135, 31964, -3141, 1308, -576, 208, -39),
    Checked(-1, 79, -324, 833, -1864, 4906, 31678, -3558, 1489, -655, 234, -43)
  ]

  const POINTS_FROM_8: seq<Point> := [
    Checked(-1, 92, -375, 958, -2144, 5697, 31349, -3944, 1658, -728, 259, -46),
    Checked(-2, 107, -426, 1084, -2424, 6506, 30979, -4298, 1815, -796, 281, -48),
    Checked(-2, 121, -478, 1209, -2703, 7332, 30569, -4621, 1960, -857, 300, -50),
    Checked(-3, 137, -530, 1333, -2980, 8173, 30119, -4912, 2092, -913, 318, -52),
    Checked(-4, 152, -581, 1455, -3254, 9027, 29632, -5172, 2211, -963, 332, -53),
    Checked(-6, 168, -632, 1575, -3523, 9893, 29107, -5401, 2317, -1007, 345, -53),
    Checked(-7, 184, -682, 1693, -3787, 10769, 28547, -5599, 2411, -1046, 355, -53)
  ]

  const POINTS_FROM_15: seq<Point> := [
    Checked(-9, 200, -731, 1807, -4043, 11654, 27953, -5767, 2491, -1078, 363, -52),
    Checked(-10, 215, -779, 1916, -4291, 12544, 27327, -5905, 2559, -1105, 369, -51),
    Checked(-12, 231, -825, 2022, -4529, 13439, 26669, -6015, 2614, -1125, 373, -50),
    Checked(-14, 247, -870, 2122, -4757, 14335, 25982, -6096, 2657, -1141, 375, -48),
    Checked(-17, 262, -912, 2216, -4972, 15232, 25268, -6149, 2687, -1151, 374, -47),
    Checked(-19, 276, -951, 2304, -5174, 16128, 24527, -6175, 2705, -1155, 372, -44),
    Checked(-21, 291, -989, 2384, -5360, 17019, 23763, -6175, 2711, -1154, 369, -42)
  ]

  const POINTS_FROM_22: seq<Point> := [
    Checked(-24, 304, -1023, 2457, -5531, 17904, 22977, -6150, 2706, -1149, 363, -40),
    Checked(-26, 317, -1053, 2522, -5685, 18782, 22170, -6101, 2689, -1138, 357, -37),
    Checked(-29, 328, -1080, 2579, -5819, 19649, 21345, -6029, 2663, -1123, 348, -34),
    Checked(-32, 339, -1104, 2625, -5935, 20504, 20504, -5935, 2625, -1104, 339, -32),
    Checked(-34, 348, -1123, 2663, -6029, 21345, 19649, -5819, 2579, -1080, 328, -29),
    Checked(-37, 357, -1138, 2689, -6101, 22170, 18782, -5685, 2522, -1053, 317, -26),
    Checked(-40, 363, -1149, 2706, -6150, 22977, 17904, -5531, 2457, -1023, 304, -24)
  ]

  const POINTS_FROM_29: seq<Point> := [
    Checked(-42, 369, -1154, 2711, -6175, 23763, 17019, -5360, 2384, -989, 291, -21),
    Checked(-44, 372, -1155, 2705, -6175, 24527, 16128, -5174, 2304, -951, 276, -19),
    Checked(-47, 374, -1151, 2687, -6149, 25268, 15232, -4972, 2216, -912, 262, -17),
    Checked(-48, 375, -1141, 2657, -6096, 25982, 14335, -4757, 2122, -870, 247, -14),
    Checked(-50, 373, -1125, 2614, -6015, 26669, 13439, -4529, 2022, -825, 231, -12),
    Checked(-51, 369, -1105, 2559, -5905, 27327, 12544, -4291, 1916, -779, 215, -10),
    Checked(-52, 363, -1078, 2491, -5767, 27953, 11654, -4043, 1807, -731, 200, -9)
  ]

  const POINTS_FROM_36: seq<Point> := [
    Checked(-53, 355, -1046, 2411, -5599, 28547, 10769, -3787, 1693, -682, 184, -7),
    Checked(-53, 345, -1007, 2317, -5401, 29107, 9893, -3523, 1575, -632, 168, -6),
    Checked(-53, 332, -963, 2211, -5172, 29632, 9027, -3254, 1455, -581, 152, -4),
    Checked(-52, 318, -913, 2092, -4912, 30119, 8173, -2980, 1333, -530, 137, -3),
    Checked(-50, 300, -857, 1960, -4621, 30569, 7332, -2703, 1209, -478, 121, -2),
    Checked(-48, 281, -796, 1815, -4298, 30979, 6506, -2424, 1084, -426, 107, -2),
    Checked(-46, 259, -728, 1658, -3944, 31349, 5697, -2144, 958, -375, 92, -1)
  ]

  const POINTS_FROM_43: seq<Point> := [
    Checked(-43, 234, -655, 1489, -3558, 31678, 4906, -1864, 833, -324, 79, -1),
    Checked(-39, 208, -576, 1308, -3141, 31964, 4135, -1586, 708, -274, 65, 0),
    Checked(-34, 178, -492, 1115, -2693, 32208, 3386, -1310, 584, -225, 53, 0),
    Checked(-29, 147, -403, 912, -2214, 32408, 2658, -1037, 462, -177, 41, 0),
    Checked(-22, 113, -309, 698, -1705, 32565, 1955, -769, 342, -130, 29, 0),
    Checked(-16, 77, -210, 474, -1166, 32677, 1277, -506, 225, -85, 19, 0),
    Checked(-8, 39, -107, 241, -597, 32744, 625, -249, 111, -41, 9, 0)
  ]

  const POINTS: seq<Point> :=
    [ON_A_SAMPLE] + POINTS_FROM_1 + POINTS_FROM_8 + POINTS_FROM_15 + POINTS_FROM_22 + POINTS_FROM_29 + POINTS_FROM_36 + POINTS_FROM_43

  /** Any table of the right size will do for the filter; this is the one libsonic uses. */
  type Table = t: seq<SincValue> | |t| == SINC_TABLE_SIZE witness seq(SINC_TABLE_SIZE, _ => 0)

  /** Entry 50 * i + j of the table is weight i at point j, and the last one is zero. */
  function TableOf(points: seq<Point>): (table: Table)
    requires |points| == LOBE_POINTS
  {
    seq(SINC_TABLE_SIZE, k requires 0 <= k < SINC_TABLE_SIZE =>
      if k == 600 then 0 else points[k % LOBE_POINTS].At(k / LOBE_POINTS))
  }

  function LibsonicTable(): Table { TableOf(POINTS) }
}
