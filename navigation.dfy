/** The screens the app's stack navigator can show. */
module Navigation {

  datatype Route = Home | Profile | Onboarding

  /** What the app renders: the splash screen, or a navigator offering a set of routes. */
  datatype Screen = Splash | Navigator(routes: seq<Route>)
}
