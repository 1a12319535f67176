/** What each step of a reap pass, and of the turns and reloads beside it, does to the fields. */
module ReaperSteps {
  import opened Options
  import opened Reaper

  predicate Live(s: State, key: Key) { key in s.config && s.config[key].active }

  /** Nothing but the pass differs. */
  predicate OnlyPass(s: State, s': State) { s' == s.(pass := s'.pass) }

  /** A pass drains the tombstoned keys that are not live and those it was given, and waits for the turns on them and
      those whose key does not show yet. */
  lemma BeginOutcome(s: State, extra: set<Key>)
    requires Enabled(s, Begin(extra))
    ensures var s' := Step(s, Begin(extra));
      && s' == s.(pass := s'.pass, changed := {}) && s'.pass.Waiting? && s'.pass.start == s.next
      && (forall key :: key in s'.pass.drain <==> (key in s.tombstones && !Live(s, key)) || key in extra)
      && (forall t :: t in s'.pass.relevant <==> t in s.turns && (!s.turns[t].resolved || s.turns[t].key in s'.pass.drain))
  {
  }

  /** When the wait is over, the turns it waited for that are still there contest their keys, and every key of the pass
      while one of them does not show its key. */
  lemma WaitOverOutcome(s: State, key: Key)
    requires Enabled(s, WaitOver)
    ensures var s' := Step(s, WaitOver);
      && OnlyPass(s, s') && s'.pass.Draining? && s'.pass.drained == {} && s'.pass.waiting == None
      && s'.pass.start == s.pass.start && s'.pass.drain == s.pass.drain
      && ((exists t :: t in s.pass.relevant && t in s.turns && !s.turns[t].resolved) ==>
            (key in s'.pass.contested <==> key in s.pass.drain))
      && ((forall t :: t in s.pass.relevant && t in s.turns ==> s.turns[t].resolved) ==>
            (key in s'.pass.contested <==> exists t :: t in s.pass.relevant && t in s.turns && s.turns[t].key == key))
  {
  }

  /** A key of the pass that is not contested is drained at once or after a wait for its lock, during which no other key
      is; a wait may be given up. */
  lemma DrainOutcomes(s: State, key: Key)
    ensures Enabled(s, Drain(key)) <==>
      s.pass.Draining? && key in s.pass.drain && key !in s.pass.contested && (s.pass.waiting == None || s.pass.waiting == Some(key))
    ensures Enabled(s, Await(key)) <==>
      s.pass.Draining? && key in s.pass.drain && key !in s.pass.contested && s.pass.waiting == None
    ensures Enabled(s, GiveUp) <==> s.pass.Draining? && s.pass.waiting.Some?
    ensures Enabled(s, Drain(key)) ==>
      Step(s, Drain(key)) == s.(pass := s.pass.(drained := s.pass.drained + {key}, waiting := None))
    ensures Enabled(s, Await(key)) ==> Step(s, Await(key)) == s.(pass := s.pass.(waiting := Some(key)))
    ensures Enabled(s, GiveUp) ==> Step(s, GiveUp) == s.(pass := s.pass.(waiting := None))
  {
  }

  /** An eviction takes exactly the sessions of drained and forced keys that are not live, or not live under the policy
      they were made with, and leaves the rest as it was. */
  lemma EvictOutcome(s: State, forced: set<Key>, n: SessionId)
    requires Enabled(s, Evict(forced))
    ensures var s' := Step(s, Evict(forced));
      && s' == s.(pass := s'.pass, sessions := s'.sessions)
      && s'.pass == Retiring(s.pass.start, s.pass.drain, s.pass.contested, s.pass.drained, forced, None)
      && (n in s'.sessions <==>
            && n in s.sessions
            && var key := s.sessions[n].route;
               (key !in s.pass.drained && key !in forced) || (Live(s, key) && s.config[key].policy == s.sessions[n].policy))
      && (n in s'.sessions ==> s'.sessions[n] == s.sessions[n])
  {
  }

  /** A profile is chosen only if it is cached, no ACTIVE route uses it and every key that ever had it is drained or forced;
      it is retired only if no ACTIVE route uses it then. */
  lemma RetireOutcomes(s: State, p: Profile)
    ensures Enabled(s, Choose(p)) <==>
      && s.pass.Retiring? && s.pass.retiring == None && p in s.profiles
      && (forall key :: Live(s, key) ==> s.config[key].profile != p)
      && (forall key :: key in s.tombstones && s.tombstones[key] == p ==> key in s.pass.drained || key in s.pass.forced)
    ensures Enabled(s, Choose(p)) ==> Step(s, Choose(p)) == s.(pass := s.pass.(retiring := Some(p)))
    ensures Enabled(s, Retire) <==>
      s.pass.Retiring? && s.pass.retiring.Some? && forall key :: Live(s, key) ==> s.config[key].profile != s.pass.retiring.value
    ensures Enabled(s, Retire) ==>
      Step(s, Retire) == s.(profiles := s.profiles - {s.pass.retiring.value}, pass := s.pass.(retiring := None))
    ensures Enabled(s, Keep) <==> s.pass.Retiring? && s.pass.retiring.Some?
    ensures Enabled(s, Keep) ==> Step(s, Keep) == s.(pass := s.pass.(retiring := None))
    ensures Enabled(s, Done) <==> s.pass.Retiring? && s.pass.retiring == None
    ensures Enabled(s, Done) ==> Step(s, Done) == s.(pass := NoPass)
  {
  }

  /** A turn keeps the route it was admitted under, shows its key and takes its lock later, and makes its session and its
      profile under that route. */
  lemma TurnOutcomes(s: State, t: TurnId, key: Key, n: SessionId)
    ensures Enabled(s, Admit(key)) ==>
      Step(s, Admit(key)) == s.(turns := s.turns[s.next := Turn(key, s.config[key], false, false, None)], next := s.next + 1)
    ensures t in s.turns ==> var i := s.turns[t];
      && Step(s, Resolve(t)) == s.(turns := s.turns[t := i.(resolved := true)])
      && Step(s, Lock(t)) == s.(turns := s.turns[t := i.(resolved := true, locked := true)])
      && Step(s, Use(t, n)) == s.(turns := s.turns[t := i.(session := Some(n))],
                                  sessions := s.sessions[n := Session(i.key, i.cfg.policy)],
                                  profiles := s.profiles + {i.cfg.profile})
      && Step(s, Finish(t)) == s.(turns := s.turns - {t})
  {
  }

  /** A reload swaps the configuration, adds its routes to the tombstones, and is remembered for the keys it changed. */
  lemma ReloadOutcome(s: State, config: Config, key: Key)
    requires Enabled(s, Reload(config))
    ensures var s' := Step(s, Reload(config));
      && s' == s.(config := config, tombstones := s'.tombstones, changed := s'.changed)
      && (key in s'.tombstones <==> key in s.tombstones || key in config)
      && (key in s'.tombstones ==>
            s'.tombstones[key] == if key in config then config[key].profile else s.tombstones[key])
      && (key in s'.changed <==>
            || key in s.changed
            || (key in s.config && key !in config) || (key !in s.config && key in config)
            || (key in s.config && key in config && s.config[key] != config[key]))
  {
  }

  lemma ElsewhereOutcome(s: State, ns: set<SessionId>, ps: set<Profile>)
    ensures Step(s, Elsewhere(ns, ps)) == s.(sessions := s.sessions - ns, profiles := s.profiles - ps)
  {
  }
}
