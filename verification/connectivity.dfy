/** The product's connectivity policy. */
module Connectivity {

  datatype Requirement = Local | Internet

  datatype InternetState = Unknown | NoInternet | Portal | Limited | Full

  datatype Observation = Observation(activated: bool, hasLocalAddress: bool, internet: InternetState)

  datatype Verdict = DeviceNotActivated | NoLocalAddress | InternetNotConfirmed | RequirementSatisfied

  datatype Result = Result(accepted: bool, reason: Verdict)

  function VerdictText(v: Verdict): string {
    match v
    case DeviceNotActivated => "device-not-activated"
    case NoLocalAddress => "no-local-address"
    case InternetNotConfirmed => "internet-not-confirmed"
    case RequirementSatisfied => "requirement-satisfied"
  }

  function Evaluate(requirement: Requirement, o: Observation): (r: Result)
    ensures r.accepted <==>
            o.activated && o.hasLocalAddress && (requirement == Internet ==> o.internet == Full)
    ensures r.accepted <==> r.reason == RequirementSatisfied
    ensures r.reason == DeviceNotActivated <==> !o.activated
    ensures r.reason == NoLocalAddress <==> o.activated && !o.hasLocalAddress
    ensures r.reason == InternetNotConfirmed <==>
            o.activated && o.hasLocalAddress && requirement == Internet && o.internet != Full
  {
    if !o.activated then Result(false, DeviceNotActivated)
    else if !o.hasLocalAddress then Result(false, NoLocalAddress)
    else if requirement == Internet && o.internet != Full then Result(false, InternetNotConfirmed)
    else Result(true, RequirementSatisfied)
  }
}
