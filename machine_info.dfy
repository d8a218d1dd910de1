/**
 * The machine profile of source/MachineInfo.h and the cost formula of
 * source/MachineInfo.cpp.
 */
module Machines {
  import opened Vectors

  /** A CNC machine's parameters: inches, inches per second, dollars per second, dollars per square inch. */
  datatype MachineInfo = MachineInfo(
    padding: real,
    maxSpeed: real,
    costPerS: real,
    costPerSqIn: real)

  /** The material area: the bounding box grown by the padding on each axis. */
  function PaddedArea(tooling: MachineInfo, bounds: Vector2): (area: real)
    ensures 0.0 <= bounds.x + tooling.padding && 0.0 <= bounds.y + tooling.padding ==> 0.0 <= area
  {
    ProductNonNegative(bounds.x + tooling.padding, bounds.y + tooling.padding);
    (bounds.x + tooling.padding) * (bounds.y + tooling.padding)
  }

  /**
   * Material cost of the padded area plus machine time cost of the cut: never
   * negative when the area, the cut time and both prices are not, and zero
   * for no area and no time.
   */
  function ComputeCost(tooling: MachineInfo, bounds: Vector2, cutTime: real): (cost: real)
    ensures (0.0 <= PaddedArea(tooling, bounds) && 0.0 <= tooling.costPerSqIn
      && 0.0 <= cutTime && 0.0 <= tooling.costPerS) ==> 0.0 <= cost
    ensures PaddedArea(tooling, bounds) == 0.0 && cutTime == 0.0 ==> cost == 0.0
  {
    ProductNonNegative(PaddedArea(tooling, bounds), tooling.costPerSqIn);
    ProductNonNegative(cutTime, tooling.costPerS);
    (PaddedArea(tooling, bounds) * tooling.costPerSqIn) + (cutTime * tooling.costPerS)
  }

  /** A product of two non-negative factors is not negative. */
  lemma ProductNonNegative(a: real, b: real)
    ensures 0.0 <= a && 0.0 <= b ==> 0.0 <= a * b
  {
    if 0.0 < a && 0.0 < b {
      assert 0.0 < a * b;
    }
  }

  /** Multiplying by a non-negative factor keeps order. */
  lemma ScaleMonotone(a: real, b: real, c: real)
    requires a <= b && 0.0 <= c
    ensures a * c <= b * c
  {
    assert b * c - a * c == (b - a) * c;
  }

  /** With a non-negative time price, a longer cut never costs less. */
  lemma CostMonotoneInCutTime(tooling: MachineInfo, bounds: Vector2, t0: real, t1: real)
    requires 0.0 <= tooling.costPerS && t0 <= t1
    ensures ComputeCost(tooling, bounds, t0) <= ComputeCost(tooling, bounds, t1)
  {
    ScaleMonotone(t0, t1, tooling.costPerS);
  }

  /** With a zero time price the cut time does not affect the cost. */
  lemma CostIndependentOfCutTime(tooling: MachineInfo, bounds: Vector2, t0: real, t1: real)
    requires tooling.costPerS == 0.0
    ensures ComputeCost(tooling, bounds, t0) == ComputeCost(tooling, bounds, t1)
  {
  }

  /** For a non-negative cut time, a higher price per second never lowers the cost. */
  lemma CostMonotoneInTimePrice(tooling: MachineInfo, bounds: Vector2, cutTime: real, price: real)
    requires 0.0 <= cutTime && tooling.costPerS <= price
    ensures ComputeCost(tooling, bounds, cutTime) <= ComputeCost(tooling.(costPerS := price), bounds, cutTime)
  {
    var pricier := tooling.(costPerS := price);
    var material := PaddedArea(tooling, bounds) * tooling.costPerSqIn;
    assert PaddedArea(pricier, bounds) * pricier.costPerSqIn == material;
    ScaleMonotone(tooling.costPerS, price, cutTime);
    assert cutTime * tooling.costPerS <= cutTime * price;
    calc {
      ComputeCost(tooling, bounds, cutTime);
    ==
      material + cutTime * tooling.costPerS;
    <=
      material + cutTime * price;
    ==
      ComputeCost(pricier, bounds, cutTime);
    }
  }

  /** For a non-negative padded area, a higher price per square inch never lowers the cost. */
  lemma CostMonotoneInAreaPrice(tooling: MachineInfo, bounds: Vector2, cutTime: real, price: real)
    requires 0.0 <= PaddedArea(tooling, bounds) && tooling.costPerSqIn <= price
    ensures ComputeCost(tooling, bounds, cutTime) <= ComputeCost(tooling.(costPerSqIn := price), bounds, cutTime)
  {
    var area := PaddedArea(tooling, bounds);
    assert PaddedArea(tooling.(costPerSqIn := price), bounds) == area;
    ScaleMonotone(tooling.costPerSqIn, price, area);
    assert area * tooling.costPerSqIn == tooling.costPerSqIn * area;
    assert area * price == price * area;
  }

  /**
   * When both padded sides are non-negative and the area price is too, more
   * padding never lowers the cost.
   */
  lemma CostMonotoneInPadding(tooling: MachineInfo, bounds: Vector2, cutTime: real, padding: real)
    requires 0.0 <= bounds.x + tooling.padding && 0.0 <= bounds.y + tooling.padding
    requires 0.0 <= tooling.costPerSqIn && tooling.padding <= padding
    ensures ComputeCost(tooling, bounds, cutTime) <= ComputeCost(tooling.(padding := padding), bounds, cutTime)
  {
    var wider := tooling.(padding := padding);
    var w0, h0 := bounds.x + tooling.padding, bounds.y + tooling.padding;
    var w1, h1 := bounds.x + padding, bounds.y + padding;
    ScaleMonotone(w0, w1, h0);
    ScaleMonotone(h0, h1, w1);
    assert PaddedArea(tooling, bounds) == w0 * h0 && PaddedArea(wider, bounds) == w1 * h1;
    calc {
      w0 * h0;
    <=
      w1 * h0;
    ==
      h0 * w1;
    <=
      h1 * w1;
    ==
      w1 * h1;
    }
    ScaleMonotone(PaddedArea(tooling, bounds), PaddedArea(wider, bounds), tooling.costPerSqIn);
  }

  /**
   * With both prices positive and a non-negative area and cut time, a quote is
   * free exactly when there is no material and no machine time.
   */
  lemma ZeroCost(tooling: MachineInfo, bounds: Vector2, cutTime: real)
    requires 0.0 < tooling.costPerSqIn && 0.0 < tooling.costPerS
    requires 0.0 <= PaddedArea(tooling, bounds) && 0.0 <= cutTime
    ensures ComputeCost(tooling, bounds, cutTime) == 0.0 <==> PaddedArea(tooling, bounds) == 0.0 && cutTime == 0.0
  {
    var area := PaddedArea(tooling, bounds);
    ProductNonNegative(area, tooling.costPerSqIn);
    ProductNonNegative(cutTime, tooling.costPerS);
    if 0.0 < area {
      assert 0.0 < area * tooling.costPerSqIn;
    }
    if 0.0 < cutTime {
      assert 0.0 < cutTime * tooling.costPerS;
    }
  }
}
