TestResult.DisplayName,TestResult.Outcome,TestResult.Duration,TestResult.ResourceCount,RandomSeed
LegacyCapture.SimpleChain (well-formedness),Passed,00:00:01.0383550,2761072,3
