/** What a run of the portal leaves of an account: its password, role and activation are those last written. */
module Credentials {
  import opened Models
  import opened SessionRuns

  /** A step as far as one account is concerned. */
  datatype Mark = Joined(role: Role, password: string) | Passworded(password: string) | Enabling(active: bool)
    | Ranked(role: Role) | Nothing

  /** What a step writes of user `id`, if it is carried out: the steps of any request that changes her account. */
  ghost function MarkOf(policy: Policy, s: State, step: Step, id: nat): (m: Mark) {
    if !SessionRuns.Enabled(policy, s, step) then Nothing
    else
      match step
      case NewUser(i, role, password) => if i == id then Joined(role, password) else Nothing
      case WritePassword(r, password) => if s.pending[r].id == id then Passworded(password) else Nothing
      case SetActive(i, active) => if i == id then Enabling(active) else Nothing
      case SetRole(i, role) => if i == id then Ranked(role) else Nothing
      case _ => Nothing
  }

  /** The password of the user's creation or of her last password write. */
  ghost function LastPassword(policy: Policy, steps: seq<Step>, id: nat): (p: string) {
    if steps == [] then ""
    else
      var earlier := steps[..|steps| - 1];
      match MarkOf(policy, Run(policy, earlier), steps[|steps| - 1], id)
      case Joined(_, password) => password
      case Passworded(password) => password
      case _ => LastPassword(policy, earlier, id)
  }

  /** The role she was made with or given last. */
  ghost function LastRole(policy: Policy, steps: seq<Step>, id: nat): (role: Role) {
    if steps == [] then OtherRole("")
    else
      var earlier := steps[..|steps| - 1];
      match MarkOf(policy, Run(policy, earlier), steps[|steps| - 1], id)
      case Joined(role, _) => role
      case Ranked(role) => role
      case _ => LastRole(policy, earlier, id)
  }

  /** Whether she was last enabled; users are made active. */
  ghost function LastActive(policy: Policy, steps: seq<Step>, id: nat): (active: bool) {
    if steps == [] then false
    else
      var earlier := steps[..|steps| - 1];
      match MarkOf(policy, Run(policy, earlier), steps[|steps| - 1], id)
      case Joined(_, _) => true
      case Enabling(active) => active
      case _ => LastActive(policy, earlier, id)
  }

  lemma MarkIsWritten(policy: Policy, s: State, step: Step, id: nat)
    requires id in SessionRuns.Next(policy, s, step).accounts.users
    ensures var m, u := MarkOf(policy, s, step, id), SessionRuns.Next(policy, s, step).accounts.users[id];
            if m.Joined? then u.active && u.role == m.role && u.password == m.password
            else
              && id in s.accounts.users
              && var before := s.accounts.users[id];
                 && u.active == (if m.Enabling? then m.active else before.active)
                 && u.role == (if m.Ranked? then m.role else before.role)
                 && u.password == if m.Passworded? then m.password else before.password
  {
  }

  /** Every account of every run is as it was last written, column by column. */
  lemma {:induction false} AccountsAreAsWritten(policy: Policy, steps: seq<Step>, id: nat)
    requires id in Run(policy, steps).accounts.users
    ensures var u := Run(policy, steps).accounts.users[id];
            && u.password == LastPassword(policy, steps, id) && u.role == LastRole(policy, steps, id)
            && u.active == LastActive(policy, steps, id)
  {
    var earlier, step := steps[..|steps| - 1], steps[|steps| - 1];
    MarkIsWritten(policy, Run(policy, earlier), step, id);
    if !MarkOf(policy, Run(policy, earlier), step, id).Joined? {
      AccountsAreAsWritten(policy, earlier, id);
    }
  }

  /** A login gets through with exactly the password written last, for exactly the users enabled last. */
  lemma LoginIffLastPassword(policy: Policy, steps: seq<Step>, request: nat, id: nat, password: string)
    requires id in Run(policy, steps).accounts.users && request !in Run(policy, steps).pending
    ensures SessionRuns.Enabled(policy, Run(policy, steps), ReadLogin(request, id, password))
            <==> LastActive(policy, steps, id) && password == LastPassword(policy, steps, id)
  {
    AccountsAreAsWritten(policy, steps, id);
  }
}
