/**
  The three switch sets and six switchable sections a weaving context owns.
  Their implementations are not part of this model: each component is known
  only by the role it plays in the context and by how many times its `Reset`
  has been invoked.
 */
module Switches {

  datatype SwitchSetKind = ExecutionSwitches | ReturnSwitches | ExecutionContextSwitches

  datatype SectionRole =
    | ExecutionVariableSection
    | ReturnVariableSection
    | ReturnFinallySection
    | ExecutionContextVariableSection
    | ExecutionContextExceptionSection
    | ExecutionContextFinallySection

  datatype SwitchSet = SwitchSet(kind: SwitchSetKind, resets: nat)

  datatype SwitchableSection = SwitchableSection(role: SectionRole, resets: nat)

  /** `SwitchFactory.InitializeSwitchSet`: a new set on which `Reset` has never run. */
  function InitializeSwitchSet(kind: SwitchSetKind): SwitchSet
  {
    SwitchSet(kind, 0)
  }

  /** `SwitchFactory.InitializeSwitchableSection`: a new section on which `Reset` has never run. */
  function InitializeSwitchableSection(role: SectionRole): SwitchableSection
  {
    SwitchableSection(role, 0)
  }

  /** `ISwitchSet.Reset`, whose effect is not modelled beyond having been invoked. */
  function ResetSwitchSet(s: SwitchSet): SwitchSet
  {
    s.(resets := s.resets + 1)
  }

  /** `ISwitchableSection.Reset`, whose effect is not modelled beyond having been invoked. */
  function ResetSection(s: SwitchableSection): SwitchableSection
  {
    s.(resets := s.resets + 1)
  }
}
