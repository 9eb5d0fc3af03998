/** The daily alert sweep of `alert.service.ts`: it picks the unpaid bills due
    today or tomorrow, looks up the `admin` users of each bill's company and
    sends each of them an email and, when they have a phone, a WhatsApp
    message. Sends are recorded as dispatches in the order they are made. */
module Alerts {
  import opened Tenancy
  import opened Calendar
  import opened Sequences
  import opened Store
  import WhatsApp

  /** The process environment the service reads; "" is an unset variable. */
  datatype Env = Env(resendApiKey: string, whatsappApiUrl: string, whatsappApiKey: string)

  /** The key the email client is built with on first use. */
  const FallbackResendKey: string := "re_123456789"

  /** The fields of the WhatsApp alert text: greeting name, account, amount, due date. */
  datatype AlertText = AlertText(greeting: string, account: string, amount: int, dueDate: Date)

  /** One send attempt: an email (only logged when `simulated`), or a WhatsApp delivery. */
  datatype Dispatch =
    | Email(to: string, account: string, amount: int, dueDate: Date, simulated: bool)
    | Chat(delivery: WhatsApp.Delivery<AlertText>)

  // -------------------------------------------------------- specification

  predicate DueSoon(p: Payable, today: Date) {
    !IsPaid(p) && (p.dueDate == today || p.dueDate == NextDay(today))
  }

  /** `.is('payment_date', null).in('due_date', [today, tomorrow])` */
  function DueAccounts(rows: seq<Payable>, today: Date): (r: seq<Payable>)
    ensures forall p :: p in r <==> p in rows && !IsPaid(p) && (p.dueDate == today || p.dueDate == NextDay(today))
  {
    Filter(rows, (p: Payable) => DueSoon(p, today))
  }

  /** `.eq('company_id', acc.company_id).eq('role', 'admin')` */
  function Admins(users: seq<UserRow>, company: Uuid): (r: seq<UserRow>)
    ensures forall u :: u in r <==> u in users && u.companyId == Some(company) && u.role == "admin"
  {
    Filter(users, (u: UserRow) => u.companyId == Some(company) && u.role == "admin")
  }

  /** `acc.description || 'Conta sem descrição'` */
  function AccountLabel(acc: Payable): (s: string)
    ensures s != ""
    ensures acc.description != "" ==> s == acc.description
  {
    if acc.description == "" then "Conta sem descrição" else acc.description
  }

  /** `user.name || 'Admin'` */
  function Greeting(u: UserRow): (s: string)
    ensures s != ""
    ensures u.name != "" ==> s == u.name
  {
    if u.name == "" then "Admin" else u.name
  }

  function Gateway(env: Env): WhatsApp.Gateway {
    WhatsApp.Gateway(env.whatsappApiUrl, env.whatsappApiKey)
  }

  /** The sends for one recipient of one account: the email, then the
      WhatsApp message when the recipient has a phone. */
  function UserDispatches(env: Env, acc: Payable, u: UserRow): seq<Dispatch> {
    [AlertEmail(env, acc, u)] + (if u.phone != "" then [AlertChat(env, acc, u)] else [])
  }

  function AlertEmail(env: Env, acc: Payable, u: UserRow): Dispatch {
    Email(u.email, AccountLabel(acc), acc.amount, acc.dueDate, env.resendApiKey == "")
  }

  function AlertChat(env: Env, acc: Payable, u: UserRow): Dispatch {
    Chat(WhatsApp.SendMessage(Gateway(env), u.phone, AlertText(Greeting(u), AccountLabel(acc), acc.amount, acc.dueDate)))
  }

  /** The sends for one account, recipient by recipient. */
  function AccountDispatches(env: Env, acc: Payable, us: seq<UserRow>): seq<Dispatch> {
    if us == [] then []
    else AccountDispatches(env, acc, us[..|us| - 1]) + UserDispatches(env, acc, us[|us| - 1])
  }

  /** The sends of a sweep over `accounts`; an account whose recipient lookup
      failed (`failed`, by account id) is skipped. */
  function Sweep(env: Env, accounts: seq<Payable>, users: seq<UserRow>, failed: set<Uuid>): seq<Dispatch> {
    if accounts == [] then []
    else
      var acc := accounts[|accounts| - 1];
      Sweep(env, accounts[..|accounts| - 1], users, failed) + AccountSends(env, acc, users, failed)
  }

  /** The sends for one swept account: none when its recipient lookup failed. */
  function AccountSends(env: Env, acc: Payable, users: seq<UserRow>, failed: set<Uuid>): seq<Dispatch> {
    if acc.id in failed then [] else AccountDispatches(env, acc, Admins(users, acc.companyId))
  }

  // ------------------------------------------------------------ properties

  function Emails(ds: seq<Dispatch>): seq<Dispatch> {
    Filter(ds, (d: Dispatch) => d.Email?)
  }

  function Chats(ds: seq<Dispatch>): seq<Dispatch> {
    Filter(ds, (d: Dispatch) => d.Chat?)
  }

  function WithPhone(us: seq<UserRow>): seq<UserRow> {
    Filter(us, (u: UserRow) => u.phone != "")
  }

  lemma EmailsAppend(a: seq<Dispatch>, b: seq<Dispatch>)
    ensures Emails(a + b) == Emails(a) + Emails(b)
    ensures Chats(a + b) == Chats(a) + Chats(b)
  {
    FilterAppend(a, b, (d: Dispatch) => d.Email?);
    FilterAppend(a, b, (d: Dispatch) => d.Chat?);
  }

  lemma UserDispatchCounts(env: Env, acc: Payable, u: UserRow)
    ensures |Emails(UserDispatches(env, acc, u))| == 1
    ensures |Chats(UserDispatches(env, acc, u))| == (if u.phone != "" then 1 else 0)
  {
    var ds := UserDispatches(env, acc, u);
    assert ds[0].Email?;
    if u.phone != "" {
      assert ds == [ds[0]] + [ds[1]];
      EmailsAppend([ds[0]], [ds[1]]);
    }
  }

  /** Every recipient gets one email, in recipient order, and a WhatsApp
      message exactly when their phone is set. */
  lemma {:induction false} AccountDispatchCounts(env: Env, acc: Payable, us: seq<UserRow>)
    ensures |Emails(AccountDispatches(env, acc, us))| == |us|
    ensures |Chats(AccountDispatches(env, acc, us))| == |WithPhone(us)|
  {
    if us != [] {
      var init := us[..|us| - 1];
      var u := us[|us| - 1];
      AccountDispatchCounts(env, acc, init);
      EmailsAppend(AccountDispatches(env, acc, init), UserDispatches(env, acc, u));
      UserDispatchCounts(env, acc, u);
      WithPhoneSnoc(us);
    }
  }

  lemma WithPhoneSnoc(us: seq<UserRow>)
    requires us != []
    ensures |WithPhone(us)| == |WithPhone(us[..|us| - 1])| + (if us[|us| - 1].phone != "" then 1 else 0)
  {
    var init, u := us[..|us| - 1], us[|us| - 1];
    assert us == init + [u];
    FilterAppend(init, [u], (u: UserRow) => u.phone != "");
    assert [u][1..] == [];
  }

  /** The email goes before the WhatsApp message, and the message goes to
      the normalised number of the same recipient. */
  lemma UserDispatchOrder(env: Env, acc: Payable, u: UserRow)
    ensures |UserDispatches(env, acc, u)| == (if u.phone != "" then 2 else 1)
    ensures UserDispatches(env, acc, u)[0] == Email(u.email, AccountLabel(acc), acc.amount, acc.dueDate, env.resendApiKey == "")
    ensures u.phone != "" ==>
      (UserDispatches(env, acc, u)[1].Chat? && UserDispatches(env, acc, u)[1].delivery.to == WhatsApp.TargetPhone(u.phone))
  {
  }

  /** Who may receive an alert for `acc`: an `admin` of its company. */
  predicate AdminOf(users: seq<UserRow>, acc: Payable, to: string) {
    exists u :: u in users && u.companyId == Some(acc.companyId) && u.role == "admin" && to == u.email
  }

  lemma {:induction false} AccountEmailsToAdmins(env: Env, acc: Payable, users: seq<UserRow>, us: seq<UserRow>)
    requires forall u :: u in us ==> u in Admins(users, acc.companyId)
    ensures forall d :: d in AccountDispatches(env, acc, us) && d.Email? ==>
      AdminOf(users, acc, d.to) && d.account == AccountLabel(acc)
  {
    if us != [] {
      var u := us[|us| - 1];
      assert u in us;
      AccountEmailsToAdmins(env, acc, users, us[..|us| - 1]);
    }
  }

  /** Every email of a sweep goes to an `admin` of the company of one of the
      swept accounts, and names that account. */
  lemma {:induction false} SweepEmailsToAdmins(env: Env, accounts: seq<Payable>, users: seq<UserRow>, failed: set<Uuid>)
    ensures forall d :: d in Sweep(env, accounts, users, failed) && d.Email? ==>
      exists acc :: acc in accounts && AdminOf(users, acc, d.to) && d.account == AccountLabel(acc)
  {
    if accounts != [] {
      var init := accounts[..|accounts| - 1];
      var acc := accounts[|accounts| - 1];
      SweepEmailsToAdmins(env, init, users, failed);
      AccountEmailsToAdmins(env, acc, users, Admins(users, acc.companyId));
      forall d | d in Sweep(env, accounts, users, failed) && d.Email?
        ensures exists a :: a in accounts && AdminOf(users, a, d.to) && d.account == AccountLabel(a)
      {
        if d in Sweep(env, init, users, failed) {
          var a :| a in init && AdminOf(users, a, d.to) && d.account == AccountLabel(a);
          assert a in accounts;
        } else {
          assert acc in accounts;
        }
      }
    }
  }

  /** Every admin of a swept account's company gets that account's email. */
  lemma {:induction false} AccountReachesEveryAdmin(env: Env, acc: Payable, us: seq<UserRow>, u: UserRow)
    requires u in us
    ensures Email(u.email, AccountLabel(acc), acc.amount, acc.dueDate, env.resendApiKey == "")
            in AccountDispatches(env, acc, us)
  {
    var init := us[..|us| - 1];
    if u != us[|us| - 1] {
      assert us == init + [us[|us| - 1]];
      assert u in init;
      AccountReachesEveryAdmin(env, acc, init, u);
    }
  }

  /** Emails are only logged, never sent, without `RESEND_API_KEY`; WhatsApp
      messages only without the gateway URL or key. */
  lemma {:induction false} SweepSimulation(env: Env, accounts: seq<Payable>, users: seq<UserRow>, failed: set<Uuid>)
    ensures forall d :: d in Sweep(env, accounts, users, failed) ==>
      (d.Email? ==> (d.simulated <==> env.resendApiKey == ""))
      && (d.Chat? ==> (d.delivery.Simulated? <==> env.whatsappApiUrl == "" || env.whatsappApiKey == ""))
  {
    if accounts != [] {
      var acc := accounts[|accounts| - 1];
      SweepSimulation(env, accounts[..|accounts| - 1], users, failed);
      AccountSimulation(env, acc, Admins(users, acc.companyId));
    }
  }

  lemma {:induction false} AccountSimulation(env: Env, acc: Payable, us: seq<UserRow>)
    ensures forall d :: d in AccountDispatches(env, acc, us) ==>
      (d.Email? ==> (d.simulated <==> env.resendApiKey == ""))
      && (d.Chat? ==> (d.delivery.Simulated? <==> env.whatsappApiUrl == "" || env.whatsappApiKey == ""))
  {
    if us != [] {
      AccountSimulation(env, acc, us[..|us| - 1]);
    }
  }

  // --------------------------------------------------------------- service

  /** The email client key after a send: built once, from `RESEND_API_KEY`
      or the placeholder key. */
  function ClientAfterSend(env: Env, client: Option<string>): (c: Option<string>)
    ensures c.Some?
    ensures client.Some? ==> c == client
    ensures client.None? && env.resendApiKey != "" ==> c == Some(env.resendApiKey)
  {
    if client.Some? then client
    else if env.resendApiKey != "" then Some(env.resendApiKey)
    else Some(FallbackResendKey)
  }

  /** The module state of `alert.service.ts` (the lazily created email client)
      and the log of send attempts. */
  class AlertService {
    const env: Env
    var client: Option<string>
    var outbox: seq<Dispatch>

    constructor (env: Env)
      ensures this.env == env && client == None && outbox == []
    {
      this.env := env;
      client := None;
      outbox := [];
    }

    /** `sendOverdueAlert`: creates the client on first use, then sends the
        email or, without `RESEND_API_KEY`, only logs it. A failed send is
        caught; the attempt is recorded either way. */
    method SendOverdueAlert(email: string, account: string, amount: int, dueDate: Date)
      modifies this`client, this`outbox
      ensures client == ClientAfterSend(env, old(client))
      ensures outbox == old(outbox) + [Email(email, account, amount, dueDate, env.resendApiKey == "")]
    {
      if client.None? {
        client := Some(if env.resendApiKey != "" then env.resendApiKey else FallbackResendKey);
      }
      outbox := outbox + [Email(email, account, amount, dueDate, env.resendApiKey == "")];
    }

    /** The inner loop of `runDailyCheck`: for each recipient in order, the
        email and, when a phone is set, the WhatsApp message. */
    method NotifyAccount(acc: Payable, recipients: seq<UserRow>)
      modifies this`client, this`outbox
      ensures outbox == old(outbox) + AccountDispatches(env, acc, recipients)
      ensures client == ClientAfter(env, old(client), AccountDispatches(env, acc, recipients))
    {
      var k := 0;
      while k < |recipients|
        invariant 0 <= k <= |recipients|
        invariant outbox == old(outbox) + AccountDispatches(env, acc, recipients[..k])
        invariant client == ClientAfter(env, old(client), AccountDispatches(env, acc, recipients[..k]))
      {
        var u := recipients[k];
        AccountStep(env, acc, recipients, k, old(outbox), old(client));
        SendOverdueAlert(u.email, AccountLabel(acc), acc.amount, acc.dueDate);
        if u.phone != "" {
          var text := AlertText(Greeting(u), AccountLabel(acc), acc.amount, acc.dueDate);
          outbox := outbox + [Chat(WhatsApp.SendMessage(Gateway(env), u.phone, text))];
        }
        k := k + 1;
      }
      assert recipients[..k] == recipients;
    }

    /** `runDailyCheck` on the day `today`. `queryOk` is false when the
        accounts query fails; `failed` holds the accounts whose recipient
        lookup returned no data. */
    method RunDailyCheck(db: Database, today: Date, queryOk: bool, failed: set<Uuid>)
      modifies this`client, this`outbox
      ensures var ds := if queryOk then Sweep(env, DueAccounts(db.accountsPayable, today), db.users, failed) else [];
        && outbox == old(outbox) + ds
        && client == ClientAfter(env, old(client), ds)
    {
      if !queryOk {
        return;
      }
      var accounts := DueAccounts(db.accountsPayable, today);
      NotifyAll(accounts, db.users, failed);
    }

    /** The outer loop of `runDailyCheck`, account by account. */
    method NotifyAll(accounts: seq<Payable>, users: seq<UserRow>, failed: set<Uuid>)
      modifies this`client, this`outbox
      ensures outbox == old(outbox) + Sweep(env, accounts, users, failed)
      ensures client == ClientAfter(env, old(client), Sweep(env, accounts, users, failed))
    {
      var i := 0;
      while i < |accounts|
        invariant 0 <= i <= |accounts|
        invariant outbox == old(outbox) + Sweep(env, accounts[..i], users, failed)
        invariant client == ClientAfter(env, old(client), Sweep(env, accounts[..i], users, failed))
      {
        SweepStep(env, accounts, i, users, failed, old(outbox), old(client));
        NotifyUnlessFailed(accounts[i], users, failed);
        i := i + 1;
      }
      assert accounts[..i] == accounts;
    }

    /** One pass of the outer loop: the account's admins are notified unless
        their lookup failed, in which case the account is skipped. */
    method NotifyUnlessFailed(acc: Payable, users: seq<UserRow>, failed: set<Uuid>)
      modifies this`client, this`outbox
      ensures outbox == old(outbox) + AccountSends(env, acc, users, failed)
      ensures client == ClientAfter(env, old(client), AccountSends(env, acc, users, failed))
    {
      if acc.id !in failed {
        NotifyAccount(acc, Admins(users, acc.companyId));
      } else {
        assert AccountSends(env, acc, users, failed) == [];
      }
    }
  }

  /** The client after the sends `ds`: untouched when nothing was sent. */
  function ClientAfter(env: Env, client: Option<string>, ds: seq<Dispatch>): Option<string> {
    if ds == [] then client else ClientAfterSend(env, client)
  }

  lemma ClientAfterAppend(env: Env, client: Option<string>, a: seq<Dispatch>, b: seq<Dispatch>)
    ensures ClientAfter(env, ClientAfter(env, client, a), b) == ClientAfter(env, client, a + b)
  {
    if a != [] {
      assert (a + b)[0] == a[0];
    } else {
      assert a + b == b;
    }
  }

  lemma AppendAssoc(a: seq<Dispatch>, b: seq<Dispatch>, c: seq<Dispatch>)
    ensures (a + b) + c == a + (b + c)
  {
  }

  /** One more recipient extends an account's sends by that recipient's:
      the email, then the WhatsApp message when a phone is set. */
  lemma AccountStep(env: Env, acc: Payable, us: seq<UserRow>, k: int, o: seq<Dispatch>, c: Option<string>)
    requires 0 <= k < |us|
    ensures var done := o + AccountDispatches(env, acc, us[..k]);
      o + AccountDispatches(env, acc, us[..k + 1])
      == (if us[k].phone != "" then (done + [AlertEmail(env, acc, us[k])]) + [AlertChat(env, acc, us[k])]
          else done + [AlertEmail(env, acc, us[k])])
    ensures ClientAfter(env, c, AccountDispatches(env, acc, us[..k + 1]))
         == ClientAfterSend(env, ClientAfter(env, c, AccountDispatches(env, acc, us[..k])))
  {
    var done := AccountDispatches(env, acc, us[..k]);
    var u := us[k];
    assert us[..k + 1][..k] == us[..k];
    assert AccountDispatches(env, acc, us[..k + 1]) == done + UserDispatches(env, acc, u);
    AppendAssoc(o, done, UserDispatches(env, acc, u));
    if u.phone != "" {
      AppendAssoc(o + done, [AlertEmail(env, acc, u)], [AlertChat(env, acc, u)]);
    }
    assert AccountDispatches(env, acc, us[..k + 1]) != [] by {
      assert |AccountDispatches(env, acc, us[..k + 1])| >= |UserDispatches(env, acc, u)| > 0;
    }
  }

  /** One more account extends the sweep by that account's sends. */
  lemma SweepStep(env: Env, accounts: seq<Payable>, i: int, users: seq<UserRow>, failed: set<Uuid>,
                  o: seq<Dispatch>, c: Option<string>)
    requires 0 <= i < |accounts|
    ensures o + Sweep(env, accounts[..i + 1], users, failed)
         == (o + Sweep(env, accounts[..i], users, failed)) + AccountSends(env, accounts[i], users, failed)
    ensures ClientAfter(env, c, Sweep(env, accounts[..i + 1], users, failed))
         == ClientAfter(env, ClientAfter(env, c, Sweep(env, accounts[..i], users, failed)),
                        AccountSends(env, accounts[i], users, failed))
  {
    var done := Sweep(env, accounts[..i], users, failed);
    var ext := AccountSends(env, accounts[i], users, failed);
    assert accounts[..i + 1][..i] == accounts[..i];
    AppendAssoc(o, done, ext);
    ClientAfterAppend(env, c, done, ext);
  }

  /** An account sends nothing exactly when it has no recipients. */
  lemma NoRecipientsNoDispatches(env: Env, acc: Payable, us: seq<UserRow>)
    ensures AccountDispatches(env, acc, us) == [] <==> us == []
  {
    if us != [] {
      assert |AccountDispatches(env, acc, us)| >= |UserDispatches(env, acc, us[|us| - 1])| > 0;
    }
  }
}
