/** Role-dependent navigation of App.tsx: the view chosen on login, the menu entries, and the views
    the content area is willing to render. */
module Navigation {
  import opened Records

  /** `handleLogin`: operators land on the transactions list, everybody else on the dashboard. */
  function DefaultView(role: Role): (v: View)
    ensures v == TransactionsList <==> role == Operator
    ensures v == Dashboard <==> role != Operator
  {
    if role == Operator then TransactionsList else Dashboard
  }

  /** `navItems`: the menu entries a role sees, in menu order. */
  function NavViews(role: Role): (views: seq<View>)
    ensures Dashboard in views <==> role != Operator
    ensures Users in views <==> role == Admin
    ensures TransactionsList in views && Accounts in views && CustodiansView in views
  {
    (if role != Operator then [Dashboard] else [])
    + [TransactionsList, Accounts, CustodiansView]
    + (if role == Admin then [Users] else [])
  }

  /** Whether the content area draws `view` for `role`: the dashboard is hidden from operators
      and user management from everybody but administrators. */
  predicate Renders(view: View, role: Role)
    ensures Renders(view, role) <==> !(view == Dashboard && role == Operator) && !(view == Users && role != Admin)
  {
    match view
    case Dashboard => role != Operator
    case Users => role == Admin
    case _ => true
  }

  /** The menu offers exactly the views that are drawn, and the view chosen on login is among them. */
  lemma NavigationAgreesWithRendering(role: Role)
    ensures DefaultView(role) in NavViews(role) && Renders(DefaultView(role), role)
    ensures forall v :: v in NavViews(role) <==> Renders(v, role)
  {
    var views := NavViews(role);
    forall v
      ensures v in views <==> Renders(v, role)
    {
      match v
      case Dashboard =>
      case Users =>
      case TransactionsList =>
      case Accounts =>
      case CustodiansView =>
    }
  }
}
