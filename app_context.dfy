/** `AppProvider` of `src/contexts/AppContext.tsx`: the client-side store as an object whose
    fields are the React state, with one method per action. Each method is proved to move the
    store exactly as the matching transition of `LedgerData` does, and to keep the store's
    invariant. `Date.now()` is the `now` parameter, and the ids it produced come from the
    counter `nextId`. */
module AppContext {
  import opened Util
  import opened LedgerData

  class AppStore {
    var isAuthenticated: bool
    var hasShop: bool
    var userProfile: Option<UserProfile>
    var shop: Option<Shop>
    var currentRole: Role
    var customers: seq<Customer>
    var bakiEntries: seq<Entry>
    var payments: seq<Entry>
    var notifications: seq<Notification>
    var isSubscribed: bool
    var nextId: nat

    /** The whole store as one value. */
    function State(): AppState
      reads this
    {
      AppState(isAuthenticated, hasShop, userProfile, shop, currentRole,
               customers, bakiEntries, payments, notifications, isSubscribed, nextId)
    }

    ghost predicate Valid()
      reads this
    {
      WellFormed(State())
    }

    function TrialDaysLeft(): (days: nat)
      ensures days == 25
    {
      LedgerData.TrialDaysLeft
    }

    constructor ()
      ensures Valid() && State() == InitialState()
    {
      isAuthenticated := false;
      hasShop := false;
      userProfile := None;
      shop := None;
      currentRole := DokandarRole;
      customers := SeedCustomers();
      bakiEntries := SeedBaki();
      payments := SeedPayments();
      notifications := SeedNotifications();
      isSubscribed := false;
      nextId := 6;
      InitialStateWellFormed();
    }

    // Auth actions

    /** `login(phone, password)`; the password is not used. */
    method Login(phone: string, password: string)
      requires Valid()
      modifies this
      ensures Valid() && State() == LedgerData.Login(old(State()), phone)
    {
      isAuthenticated := true;
      userProfile := Some(UserProfile("u1", DemoName(currentRole), phone, currentRole));
      if currentRole == DokandarRole {
        hasShop := true;
        shop := Some(Shop("s1", DemoShopName, phone, Some(DemoShopAddress)));
      }
    }

    method Signup(phone: string, password: string, name: string, role: Role)
      requires Valid()
      modifies this
      ensures Valid() && State() == LedgerData.Signup(old(State()), phone, name, role)
    {
      isAuthenticated := true;
      currentRole := role;
      userProfile := Some(UserProfile("u1", name, phone, role));
      if role == DokandarRole {
        hasShop := false;
      }
    }

    method Logout()
      requires Valid()
      modifies this
      ensures Valid() && State() == LedgerData.Logout(old(State()))
    {
      isAuthenticated := false;
      hasShop := false;
      userProfile := None;
      shop := None;
    }

    method SetupShop(name: string, phone: string, address: Option<string>)
      requires Valid()
      modifies this
      ensures Valid() && State() == LedgerData.SetupShop(old(State()), name, phone, address)
    {
      shop := Some(Shop("s1", name, phone, address));
      hasShop := true;
    }

    method SwitchRole(role: Role)
      requires Valid()
      modifies this
      ensures Valid() && State() == LedgerData.SwitchRole(old(State()), role)
    {
      currentRole := role;
      if isAuthenticated && userProfile.Some? {
        userProfile := Some(userProfile.value.(role := role, name := DemoName(role)));
      }
    }

    // Customer actions

    method AddCustomer(phone: string, name: string, now: Time)
      requires Valid()
      modifies this
      ensures Valid() && State() == LedgerData.AddCustomer(old(State()), phone, name, now)
    {
      AddCustomerKeepsWellFormed(State(), phone, name, now);
      var newCustomer := Customer(FreshId('c', nextId), phone, name, 0, None, now);
      customers := [newCustomer] + customers;
      nextId := nextId + 1;
    }

    // Baki actions

    method AddBaki(customerId: Id, amount: int, description: Option<string>, now: Time)
      requires Valid()
      modifies this
      ensures Valid()
      ensures State() == AddEntry(old(State()), Baki, customerId, amount, BakiDetail(description), now)
    {
      ghost var before := State();
      AddEntryKeepsWellFormed(before, Baki, customerId, amount, BakiDetail(description), now);
      var customer := FindCustomer(customers, customerId);
      if customer.None? {
        assert AddEntry(before, Baki, customerId, amount, BakiDetail(description), now) == before;
        return;
      }
      var newBaki := Entry(FreshId('b', nextId), customerId, customer.value.name, amount,
                           BakiDetail(description), Pending, now, None, None, None);
      var newNotification := Notification(FreshId('n', nextId), NoteTitle(Baki),
                                          NoteMessage(Baki, customer.value.name, amount), BakiNote, false, now);
      var entries, notes := [newBaki] + bakiEntries, [newNotification] + notifications;
      assert AddEntry(before, Baki, customerId, amount, BakiDetail(description), now)
        == before.(bakiEntries := entries, notifications := notes, nextId := nextId + 1);
      bakiEntries := entries;
      notifications := notes;
      nextId := nextId + 1;
    }

    method ConfirmBaki(id: Id, now: Time)
      requires Valid()
      modifies this
      ensures Valid() && State() == Confirm(old(State()), Baki, id, now)
    {
      ghost var before := State();
      var entry := FindEntry(bakiEntries, id);
      var confirmed := MarkConfirmed(bakiEntries, id, now);
      var adjusted := customers;
      if entry.Some? {
        adjusted := AdjustBalance(customers, entry.value.customerId, entry.value.amount, now);
        ConfirmKnown(before, Baki, id, now, entry.value);
      } else {
        ConfirmUnknown(before, Baki, id, now);
      }
      ConfirmKeepsWellFormed(before, Baki, id, now);
      bakiEntries := confirmed;
      customers := adjusted;
    }

    method RejectBaki(id: Id)
      requires Valid()
      modifies this
      ensures Valid() && State() == Reject(old(State()), Baki, id)
    {
      ghost var before := State();
      var rejected := MarkRejected(bakiEntries, id);
      assert Reject(before, Baki, id) == before.(bakiEntries := rejected);
      RejectKeepsWellFormed(before, Baki, id);
      bakiEntries := rejected;
    }

    // Payment actions

    method AddPayment(customerId: Id, amount: int, paymentMethod: PaymentMethod, now: Time)
      requires Valid()
      modifies this
      ensures Valid()
      ensures State() == AddEntry(old(State()), Payment, customerId, amount, PaymentDetail(paymentMethod), now)
    {
      ghost var before := State();
      AddEntryKeepsWellFormed(before, Payment, customerId, amount, PaymentDetail(paymentMethod), now);
      var customer := FindCustomer(customers, customerId);
      if customer.None? {
        assert AddEntry(before, Payment, customerId, amount, PaymentDetail(paymentMethod), now) == before;
        return;
      }
      var newPayment := Entry(FreshId('p', nextId), customerId, customer.value.name, amount,
                              PaymentDetail(paymentMethod), Pending, now, None, None, None);
      var newNotification := Notification(FreshId('n', nextId), NoteTitle(Payment),
                                          NoteMessage(Payment, customer.value.name, amount), PaymentNote, false, now);
      var entries, notes := [newPayment] + payments, [newNotification] + notifications;
      assert AddEntry(before, Payment, customerId, amount, PaymentDetail(paymentMethod), now)
        == before.(payments := entries, notifications := notes, nextId := nextId + 1);
      payments := entries;
      notifications := notes;
      nextId := nextId + 1;
    }

    method ConfirmPayment(id: Id, now: Time)
      requires Valid()
      modifies this
      ensures Valid() && State() == Confirm(old(State()), Payment, id, now)
    {
      ghost var before := State();
      var payment := FindEntry(payments, id);
      var confirmed := MarkConfirmed(payments, id, now);
      var adjusted := customers;
      if payment.Some? {
        adjusted := AdjustBalance(customers, payment.value.customerId, -payment.value.amount, now);
        ConfirmKnown(before, Payment, id, now, payment.value);
      } else {
        ConfirmUnknown(before, Payment, id, now);
      }
      ConfirmKeepsWellFormed(before, Payment, id, now);
      payments := confirmed;
      customers := adjusted;
    }

    method RejectPayment(id: Id)
      requires Valid()
      modifies this
      ensures Valid() && State() == Reject(old(State()), Payment, id)
    {
      ghost var before := State();
      var rejected := MarkRejected(payments, id);
      assert Reject(before, Payment, id) == before.(payments := rejected);
      RejectKeepsWellFormed(before, Payment, id);
      payments := rejected;
    }

    // Notification actions

    method MarkNotificationRead(id: Id)
      requires Valid()
      modifies this
      ensures Valid() && State() == LedgerData.MarkNotificationRead(old(State()), id)
    {
      notifications := MarkRead(notifications, id);
    }

    method ClearAllNotifications()
      requires Valid()
      modifies this
      ensures Valid() && State() == LedgerData.ClearAllNotifications(old(State()))
    {
      notifications := MarkAllRead(notifications);
    }

    // Subscription

    method Subscribe()
      requires Valid()
      modifies this
      ensures Valid() && State() == LedgerData.Subscribe(old(State()))
    {
      isSubscribed := true;
    }
  }
}
