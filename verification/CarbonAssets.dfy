/**
 * The carbon registry calls as functions of the storage. `*Id` arguments stand for the hash the
 * pallet computes of the call's contents; `authorized` for what `ApproveOrigin` decides.
 */
module CarbonAssets {
  import opened U64
  import opened Ledger

  predicate HasAsset(assets: map<Hash, Asset>, assetId: Hash) {
    assetId in assets && assets[assetId].status == Approved
  }

  function SubmitProject(s: State, sender: AccountId, projectId: Hash, maxSupply: u64): Post {
    if projectId in s.projects then Fail(s, DuplicatedKey)
    else
      Post(s.(projects := s.projects[projectId := Project(maxSupply, 0, Submitted, sender)],
              events := s.events + [ProjectSubmited(projectId, sender)]), Ok)
  }

  function ApproveProject(s: State, authorized: bool, projectId: Hash): Post {
    if !authorized then Fail(s, BadOrigin)
    else if projectId !in s.projects then Fail(s, InvalidIndex)
    else if s.projects[projectId].status != Submitted then Fail(s, AlreadyApproved)
    else
      Post(s.(projects := s.projects[projectId := s.projects[projectId].(status := Approved)],
              events := s.events + [ProjectApproved(projectId)]), Ok)
  }

  /** `amount + project.total_supply <= project.max_supply`, where the sum wraps. */
  predicate WithinLimit(p: Project, amount: u64) {
    Add(amount, p.totalSupply) <= p.maxSupply
  }

  function SubmitAsset(s: State, sender: AccountId, projectId: Hash, initialSupply: u64, assetId: Hash): Post {
    if projectId !in s.projects then Fail(s, InvalidIndex)
    else
      var project := s.projects[projectId];
      if project.status != Approved then Fail(s, ProjectNotApproved)
      else if project.owner != sender then Fail(s, PermissionDenied)
      else if !WithinLimit(project, initialSupply) then Fail(s, OverIssueLimit)
      else if assetId in s.assets then Fail(s, DuplicatedKey)
      else
        Post(s.(assets := s.assets[assetId := Asset(projectId, initialSupply, 0, Submitted)],
                events := s.events + [AssetSubmited(projectId, assetId, sender)]), Ok)
  }

  /** The raised `project.total_supply` is computed but never stored, and the balance is overwritten. */
  function ApproveAsset(s: State, authorized: bool, assetId: Hash): Post {
    if !authorized then Fail(s, BadOrigin)
    else if assetId !in s.assets then Fail(s, InvalidIndex)
    else
      var asset := s.assets[assetId];
      if asset.status != Submitted then Fail(s, AlreadyApproved)
      else if asset.projectId !in s.projects then Fail(s, InvalidIndex)
      else
        var project := s.projects[asset.projectId];
        if !WithinLimit(project, asset.initialSupply) then Fail(s, OverIssueLimit)
        else
          Post(s.(assets := s.assets[assetId := asset.(status := Approved, totalSupply := asset.initialSupply)],
                  carbon := SetBalance(s.carbon, assetId, project.owner, asset.initialSupply),
                  events := s.events + [AssetApproved(assetId)]), Ok)
  }

  function SubmitIssue(s: State, sender: AccountId, assetId: Hash, amount: u64, issueId: Hash): Post {
    if assetId !in s.assets then Fail(s, InvalidIndex)
    else
      var asset := s.assets[assetId];
      if asset.status != Approved then Fail(s, AssetNotApproved)
      else if asset.projectId !in s.projects then Fail(s, InvalidIndex)
      else
        var project := s.projects[asset.projectId];
        if project.owner != sender then Fail(s, PermissionDenied)
        else if !WithinLimit(project, amount) then Fail(s, OverIssueLimit)
        else if issueId in s.issues then Fail(s, DuplicatedKey)
        else
          Post(s.(issues := s.issues[issueId := IssueInfo(assetId, amount, Submitted)],
                  events := s.events + [IssueSubmited(issueId, assetId, sender, amount)]), Ok)
  }

  function ApproveIssue(s: State, authorized: bool, issueId: Hash): Post {
    if !authorized then Fail(s, BadOrigin)
    else if issueId !in s.issues then Fail(s, InvalidIndex)
    else
      var issue := s.issues[issueId];
      if issue.status != Submitted then Fail(s, AlreadyApproved)
      else if issue.assetId !in s.assets then Fail(s, InvalidIndex)
      else
        var asset := s.assets[issue.assetId];
        if asset.projectId !in s.projects then Fail(s, InvalidIndex)
        else
          var project := s.projects[asset.projectId];
          if !WithinLimit(project, issue.amount) then Fail(s, OverIssueLimit)
          else
            Post(s.(assets := s.assets[issue.assetId :=
                                         asset.(totalSupply := Add(asset.totalSupply, issue.amount))],
                    projects := s.projects[asset.projectId :=
                                             project.(totalSupply := Add(project.totalSupply, issue.amount))],
                    issues := s.issues[issueId := issue.(status := Approved)],
                    carbon := SetBalance(s.carbon, issue.assetId, project.owner,
                                         Add(BalanceOf(s.carbon, issue.assetId, project.owner), issue.amount)),
                    events := s.events + [IssueApproved(issueId)]), Ok)
  }

  /** The duplicate test looks the burn id up among the projects, so a pending burn can be overwritten. */
  function SubmitBurn(s: State, sender: AccountId, assetId: Hash, amount: u64, burnId: Hash): Post {
    if assetId !in s.assets then Fail(s, InvalidIndex)
    else
      var asset := s.assets[assetId];
      if asset.status != Approved then Fail(s, AssetNotApproved)
      else if asset.projectId !in s.projects then Fail(s, InvalidIndex)
      else if s.projects[asset.projectId].owner != sender then Fail(s, PermissionDenied)
      else if burnId in s.projects then Fail(s, DuplicatedKey)
      else if amount > BalanceOf(s.carbon, assetId, sender) then Fail(s, BalanceLow)
      else
        Post(s.(burns := s.burns[burnId := BurnInfo(assetId, amount, Submitted)],
                carbon := SetBalance(s.carbon, assetId, sender,
                                     Sub(BalanceOf(s.carbon, assetId, sender), amount)),
                events := s.events + [BurnSubmited(burnId, assetId, sender, amount)]), Ok)
  }

  /** The event deposited is `IssueApproved`, carrying the burn's id. */
  function ApproveBurn(s: State, authorized: bool, burnId: Hash): Post {
    if !authorized then Fail(s, BadOrigin)
    else if burnId !in s.burns then Fail(s, InvalidIndex)
    else
      var burn := s.burns[burnId];
      if burn.status != Submitted then Fail(s, AlreadyApproved)
      else if burn.assetId !in s.assets then Fail(s, InvalidIndex)
      else
        var asset := s.assets[burn.assetId];
        if asset.projectId !in s.projects then Fail(s, InvalidIndex)
        else
          var project := s.projects[asset.projectId];
          Post(s.(assets := s.assets[burn.assetId :=
                                       asset.(totalSupply := Sub(asset.totalSupply, burn.amount))],
                  projects := s.projects[asset.projectId :=
                                           project.(totalSupply := Sub(project.totalSupply, burn.amount))],
                  burns := s.burns[burnId := burn.(status := Approved)],
                  events := s.events + [IssueApproved(burnId)]), Ok)
  }

  function Transfer(s: State, sender: AccountId, assetId: Hash, to: AccountId, amount: u64): Post {
    if amount == 0 then Fail(s, AmountZero)
    else if BalanceOf(s.carbon, assetId, sender) < amount then Fail(s, BalanceLow)
    else
      Post(s.(carbon := MakeTransfer(s.carbon, assetId, sender, to, amount),
              events := s.events + [Transferred(assetId, sender, to, amount)]), Ok)
  }

  function Neutralize(s: State, sender: AccountId, assetId: Hash, amount: u64): Post {
    if amount == 0 then Fail(s, AmountZero)
    else if BalanceOf(s.carbon, assetId, sender) < amount then Fail(s, BalanceLow)
    else
      Post(s.(carbon := SetBalance(s.carbon, assetId, sender,
                                   Sub(BalanceOf(s.carbon, assetId, sender), amount)),
              events := s.events + [Neutralized(assetId, sender, amount)]), Ok)
  }
}
