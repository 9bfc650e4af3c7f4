/**
 * The effect broker as the spell maker sees it.
 *
 * The real `EntityEffectBroker` is reached through a global game manager and
 * is not part of this model; the window only asks it two questions, so it is
 * modelled as the answers to those questions.
 */
module Broker {

  /** One entry of `GetEffectKeyNamePairs`: the group it belongs to, the
      subgroup (display) name and the effect's key. */
  datatype EffectKeyNamePair = EffectKeyNamePair(groupName: string, subGroupName: string, key: string)

  /** `groupNames` answers `GetGroupNames()`; `keyNamePairs(g)` answers
      `GetEffectKeyNamePairs(g)`. */
  datatype EffectBroker = EffectBroker(
    groupNames: seq<string>,
    keyNamePairs: string -> seq<EffectKeyNamePair>)

  /** The subgroup names of `effects`, in the same order. */
  function SubGroupNames(effects: seq<EffectKeyNamePair>): (names: seq<string>)
    ensures |names| == |effects|
    ensures forall i :: 0 <= i < |effects| ==> names[i] == effects[i].subGroupName
  {
    if effects == [] then [] else [effects[0].subGroupName] + SubGroupNames(effects[1..])
  }
}
