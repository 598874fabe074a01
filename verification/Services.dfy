/** The services over the repository: what each request does before and around its one repository call. */
module Services {
  import opened Durations
  import opened Domain
  import opened Store
  import opened Compliance
  import opened MemoryRepository
  import Fanout
  import Schedules

  /** The monitoring rules, one conditional append each. */
  method Evaluate(t: Transaction) returns (findings: seq<RuleCode>)
    ensures LargeTransaction in findings <==> t.amountMinor >= LARGE_AMOUNT
    ensures HighRiskCounterpartyCountry in findings <==> HighRiskCountry(t.counterpartyCountry)
    ensures findings == Findings(t)
  {
    findings := [];
    if t.amountMinor >= LARGE_AMOUNT {
      findings := findings + [LargeTransaction];
    }
    if HighRiskCountry(t.counterpartyCountry) {
      findings := findings + [HighRiskCounterpartyCountry];
    }
  }

  method AlertsFor(c: Call, t: Transaction, findings: seq<RuleCode>)
      returns (alerts: seq<Alert>, alertEvents: seq<Event>)
    ensures alerts == NewAlerts(c, t, findings) && alertEvents == NewAlertEvents(c, t, findings)
  {
    alerts, alertEvents := [], [];
    var taken := 2;
    for i := 0 to |findings|
      invariant taken == 2 + 2 * i
      invariant alerts == NewAlerts(c, t, findings[..i]) && alertEvents == NewAlertEvents(c, t, findings[..i])
    {
      var alert := Alert(ID(c.serial, taken), t.id, t.customer, findings[i], AlertOpen, c.now, None, "", "");
      alerts := alerts + [alert];
      alertEvents := alertEvents +
        [Event(ID(c.serial, taken + 1), AlertAggregate, alert.id, "transaction-monitoring-engine", c.now,
               AlertRaised(t.id, findings[i]))];
      taken := taken + 2;
    }
    assert findings[..|findings|] == findings;
  }

  class Server {
    const repo: Repository

    constructor (repo: Repository)
      ensures this.repo == repo
    {
      this.repo := repo;
    }

    method Ingest(c: Call) returns (answer: Answer)
      requires c.request.Ingest?
      modifies repo
      ensures Result(repo.Contents(), answer) == PerformIngest(old(repo.Contents()), c)
    {
      var cmd := Normalized(c.request.cmd);
      if !ValidIngest(cmd) {
        return Failed(InvalidTransaction);
      }
      var t := NewTransaction(c, cmd);
      var e := Event(ID(c.serial, 1), TransactionAggregate, t.id, cmd.actor, c.now,
                     Ingested(t.customer, t.amountMinor));
      var findings := Evaluate(t);
      var alerts, alertEvents := AlertsFor(c, t, findings);
      answer := repo.CreateTransaction(t, e, alerts, alertEvents);
    }

    method ScreenCustomer(c: Call) returns (answer: Answer)
      requires c.request.Screen?
      modifies repo
      ensures Result(repo.Contents(), answer) == PerformScreen(old(repo.Contents()), c)
    {
      var r := c.request;
      if r.customer == Blank || Trim(r.actor) == "" {
        return Failed(InvalidScreening);
      }
      if r.customer !in repo.customers {
        return Failed(CustomerNotFound);
      }
      if |r.replies| != 1 + |r.owners| {
        return Failed(ProviderFailed);
      }
      var subjects := Fanout.Subjects(r.customer, repo.customers[r.customer].legalName, r.owners);
      var batch := Fanout.ScreenSubjects(ScreenContext(c), r.webhook, r.recipients, subjects, r.replies);
      if batch.None? {
        return Failed(ProviderFailed);
      }
      repo.SaveScreening(batch.value);
      return Done;
    }

    method Submit(c: Call) returns (answer: Answer)
      requires c.request.Onboard?
      modifies repo
      ensures Result(repo.Contents(), answer) == PerformOnboard(old(repo.Contents()), c)
    {
      var r := c.request;
      var name, country := Trim(r.legalName), Upper(Trim(r.countryCode));
      if name == "" || |country| != 2 || r.customerType == OtherType || r.countryRisk == OtherRisk {
        return Failed(InvalidCustomer);
      }
      var actor := Trim(r.actor);
      if actor == "" {
        return Failed(InvalidCustomer);
      }
      var customer := Customer(ID(c.serial, 0), name, country, PendingApproval, actor, c.now, "", None);
      repo.CreateCustomer(customer, Event(ID(c.serial, 1), CustomerAggregate, customer.id, actor, c.now, Submitted));
      return Done;
    }
  }
}
