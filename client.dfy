/** What a caller can conclude from the contracts alone. */
module Client {
  import opened Wrappers
  import opened Tables
  import opened Splice
  import opened FanOut
  import opened PubSub

  method PriorityScopedDelivery(f: int, g: int)
    requires f != g
  {
    var d := new Registry<int>();
    var hf := d.Subscribe("topic1", 5, f);
    var hg := d.Subscribe("topic1", 20, g);
    assert hf == Handle("topic1", f, IntKey(5));
    var calls := d.Publish("topic1", Priority(5), Some([1]));
    assert calls == [Invocation(f, [1])];
    var none := d.Publish("nonexistent", Args([1, 2]), None);
    assert none == [];
  }

  method DuplicateUnsubscribe(f: int)
  {
    var d := new Registry<int>();
    var h := d.Subscribe("topic1", 0, f);
    var h' := d.Subscribe("topic1", 0, f);
    assert h == h' == Handle("topic1", f, IntKey(10));
    d.Unsubscribe(h);
    SpliceMatchesRun(f, 2);
    assert Run(f, 2) == [f, f] && Run(f, 1) == [f];
    assert Contents(d.cache, "topic1", IntKey(10)) == [f];
  }
}
