/** The side menu (`Sidebar`): which sections a user sees, by the company's
    activity and the user's role, and the logout button. */
module Sidebar {
  import opened Common
  import opened Json
  import opened AuthStore

  datatype MenuItem = MenuItem(path: string, caption: string)

  const DashboardItem: MenuItem := MenuItem("/dashboard", "Дашборд")
  const DeclarationsItem: MenuItem := MenuItem("/declarations", "Декларации")
  const CertificatesItem: MenuItem := MenuItem("/certificates", "Сертификаты")
  const TasksItem: MenuItem := MenuItem("/tasks", "Задачи")
  const DocumentsItem: MenuItem := MenuItem("/documents", "Документы")
  const ClientsItem: MenuItem := MenuItem("/clients", "Клиенты")
  const PartnershipsItem: MenuItem := MenuItem("/partnerships", "Сотрудничество")
  const EmployeesItem: MenuItem := MenuItem("/employees", "Мои сотрудники")
  const RequestsItem: MenuItem := MenuItem("/requests", "Запросы")
  const SettingsItem: MenuItem := MenuItem("/settings", "Настройки")

  /** The sections every user sees between the dashboard and the role-based ones. */
  const CommonItems: seq<MenuItem> := [CertificatesItem, TasksItem, DocumentsItem, ClientsItem, PartnershipsItem]

  predicate IsDeclarant(user: Option<User>) { user.Some? && user.value.activityType == "declarant" }
  predicate IsDirector(user: Option<User>) { user.Some? && user.value.role == Some("director") }
  predicate IsSenior(user: Option<User>) { user.Some? && user.value.role == Some("senior") }

  predicate HasPath(items: seq<MenuItem>, path: string) {
    exists i :: 0 <= i < |items| && items[i].path == path
  }

  predicate DistinctPaths(items: seq<MenuItem>) {
    forall i, j :: 0 <= i < j < |items| ==> items[i].path != items[j].path
  }

  /** `menuItems`: the dashboard first and the settings last; the
      declarations right after the dashboard for a declarant company only;
      the five common sections in their order; "my employees" for a
      director or a senior, and the requests for a director, after them. */
  method MenuItems(user: Option<User>) returns (items: seq<MenuItem>)
    ensures 7 <= |items| <= 10 && DistinctPaths(items)
    ensures items[0] == DashboardItem && items[|items| - 1] == SettingsItem
    ensures HasPath(items, DeclarationsItem.path) <==> IsDeclarant(user)
    ensures IsDeclarant(user) ==> items[1] == DeclarationsItem
    ensures var d := if IsDeclarant(user) then 1 else 0; items[1 + d..6 + d] == CommonItems
    ensures HasPath(items, EmployeesItem.path) <==> IsDirector(user) || IsSenior(user)
    ensures HasPath(items, RequestsItem.path) <==> IsDirector(user)
    ensures IsDirector(user) ==> items[|items| - 3] == EmployeesItem && items[|items| - 2] == RequestsItem
  {
    var declarant, employees, requests := IsDeclarant(user), IsDirector(user) || IsSenior(user), IsDirector(user);
    items := [DashboardItem];
    if declarant {
      items := items + [DeclarationsItem];
    }
    ghost var head := items;
    items := items + [CertificatesItem];
    items := items + [TasksItem];
    items := items + [DocumentsItem];
    items := items + [ClientsItem];
    items := items + [PartnershipsItem];
    assert items == head + CommonItems;
    if employees {
      items := items + [EmployeesItem];
    }
    if requests {
      items := items + [RequestsItem];
    }
    items := items + [SettingsItem];
    assert items == Layout(declarant, employees, requests);
    LayoutShape(declarant, employees, requests);
    LayoutDeclarations(declarant, employees, requests);
    LayoutRoles(declarant, employees, requests);
  }

  /** The menu for the three conditions, as one sequence. */
  ghost function Layout(declarant: bool, employees: bool, requests: bool): seq<MenuItem> {
    [DashboardItem] + (if declarant then [DeclarationsItem] else []) + CommonItems +
    (if employees then [EmployeesItem] else []) + (if requests then [RequestsItem] else []) + [SettingsItem]
  }

  /** The menu has seven to ten entries, no path twice, the dashboard
      first and the settings last. */
  lemma LayoutShape(declarant: bool, employees: bool, requests: bool)
    requires requests ==> employees
    ensures var items := Layout(declarant, employees, requests);
      7 <= |items| <= 10 && DistinctPaths(items) &&
      items[0] == DashboardItem && items[|items| - 1] == SettingsItem
  {
    if declarant {
      DeclarantMenuDistinct(employees, requests);
    } else {
      OtherMenuDistinct(employees, requests);
    }
  }

  /** No path twice in the menus of a declarant company. */
  lemma DeclarantMenuDistinct(employees: bool, requests: bool)
    requires requests ==> employees
    ensures DistinctPaths(Layout(true, employees, requests))
  {
  }

  /** No path twice in the menus of any other company. */
  lemma OtherMenuDistinct(employees: bool, requests: bool)
    requires requests ==> employees
    ensures DistinctPaths(Layout(false, employees, requests))
  {
  }

  /** The declarations entry exists exactly for a declarant company, right
      after the dashboard, and the five common sections follow. */
  lemma LayoutDeclarations(declarant: bool, employees: bool, requests: bool)
    requires requests ==> employees
    ensures var items := Layout(declarant, employees, requests);
      (HasPath(items, DeclarationsItem.path) <==> declarant) &&
      (declarant ==> items[1] == DeclarationsItem) &&
      items[1 + (if declarant then 1 else 0)..6 + (if declarant then 1 else 0)] == CommonItems
  {
    var items := Layout(declarant, employees, requests);
    var rest := [CertificatesItem, TasksItem, DocumentsItem, ClientsItem, PartnershipsItem];
    assert CommonItems == rest;
    if declarant {
      if requests {
        assert items == [DashboardItem, DeclarationsItem] + rest + [EmployeesItem, RequestsItem, SettingsItem];
        assert items[1] == DeclarationsItem;
      } else if employees {
        assert items == [DashboardItem, DeclarationsItem] + rest + [EmployeesItem, SettingsItem];
        assert items[1] == DeclarationsItem;
      } else {
        assert items == [DashboardItem, DeclarationsItem] + rest + [SettingsItem];
        assert items[1] == DeclarationsItem;
      }
    } else {
      if requests {
        assert items == [DashboardItem] + rest + [EmployeesItem, RequestsItem, SettingsItem];
      } else if employees {
        assert items == [DashboardItem] + rest + [EmployeesItem, SettingsItem];
      } else {
        assert items == [DashboardItem] + rest + [SettingsItem];
      }
    }
  }

  /** The employees entry exists exactly when `employees` holds, the
      requests entry exactly when `requests` holds, and then in that order
      just before the settings. */
  lemma LayoutRoles(declarant: bool, employees: bool, requests: bool)
    requires requests ==> employees
    ensures var items := Layout(declarant, employees, requests);
      (HasPath(items, EmployeesItem.path) <==> employees) &&
      (HasPath(items, RequestsItem.path) <==> requests) &&
      (requests ==> items[|items| - 3] == EmployeesItem && items[|items| - 2] == RequestsItem)
  {
    var items := Layout(declarant, employees, requests);
    var rest := [CertificatesItem, TasksItem, DocumentsItem, ClientsItem, PartnershipsItem];
    assert CommonItems == rest;
    if declarant {
      if requests {
        assert items == [DashboardItem, DeclarationsItem] + rest + [EmployeesItem, RequestsItem, SettingsItem];
        assert items[7] == EmployeesItem && items[8] == RequestsItem;
      } else if employees {
        assert items == [DashboardItem, DeclarationsItem] + rest + [EmployeesItem, SettingsItem];
        assert items[7] == EmployeesItem;
      } else {
        assert items == [DashboardItem, DeclarationsItem] + rest + [SettingsItem];
      }
    } else {
      if requests {
        assert items == [DashboardItem] + rest + [EmployeesItem, RequestsItem, SettingsItem];
        assert items[6] == EmployeesItem && items[7] == RequestsItem;
      } else if employees {
        assert items == [DashboardItem] + rest + [EmployeesItem, SettingsItem];
        assert items[6] == EmployeesItem;
      } else {
        assert items == [DashboardItem] + rest + [SettingsItem];
      }
    }
  }

  /** `handleLogout`: the session is cleared, then the login page. */
  method HandleLogout(auth: AuthState) returns (nav: string)
    modifies auth, auth.storage
    ensures auth.SignedOut() && auth.storage.items == WithoutSession(old(auth.storage.items))
    ensures nav == LoginPath
  {
    auth.Logout();
    nav := LoginPath;
  }
}
