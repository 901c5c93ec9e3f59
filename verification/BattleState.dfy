/** Plain data shared by the save-state and the checksum modules. */
module BattleState {

  type Bytes = seq<bv8>

  /** The engine's 16.16 number: `fractional` comes first in memory. */
  datatype FixedPoint = FixedPoint(fractional: bv16, integral: bv16)

  const ZERO_POINT := FixedPoint(0, 0)

  /** The battle variables a save slot copies verbatim instead of recording
      them through mementos. Callbacks are image addresses. */
  datatype Globals = Globals(
    currentFlow: bv32,
    previousFlow: bv32,
    currentSubstate: bv32,
    previousSubstate: bv32,
    currentFlowFrame: FixedPoint,
    currentSubstateFrame: FixedPoint,
    previousFlowFrame: FixedPoint,
    previousSubstateFrame: FixedPoint,
    substateCallable: bv32,
    everyFrameCallback: bv32,
    gameManager: Bytes)
}
