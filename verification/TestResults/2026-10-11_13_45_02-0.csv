TestResult.DisplayName,TestResult.Outcome,TestResult.Duration,TestResult.ResourceCount,RandomSeed
LegacyCapture.SimpleChain (well-formedness),Passed,00:00:00.9284890,1848672,0
